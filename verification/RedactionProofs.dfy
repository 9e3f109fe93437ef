// Redacted text holds no secret-shaped token, so redacting again changes nothing.
module RedactionProofs {
  import opened Wrappers
  import opened Redaction

  // ----- One match seen in another text -----

  predicate SameText(o: string, a: nat, t: string, b: nat, n: nat) {
    a + n <= |o| && b + n <= |t| && o[a..a + n] == t[b..b + n]
  }

  lemma SameChar(o: string, a: nat, t: string, b: nat, n: nat, k: nat)
    requires SameText(o, a, t, b, n) && k < n
    ensures o[a + k] == t[b + k]
  {
    assert o[a..a + n][k] == t[b..b + n][k];
  }

  lemma SameChars(o: string, a: nat, t: string, b: nat, n: nat)
    requires SameText(o, a, t, b, n)
    ensures forall k :: a <= k < a + n ==> o[k] == t[k - a + b]
  {
    forall k | a <= k < a + n
      ensures o[k] == t[k - a + b]
    {
      SameChar(o, a, t, b, n, k - a);
    }
  }

  lemma ShiftToken(r: Rule, o: string, a: nat, t: string, b: nat, n: nat)
    requires TokenMatch(r, o, a, a + n) && SameText(o, a, t, b, n) && Boundary(t, b) && Boundary(t, b + n)
    ensures TokenMatch(r, t, b, b + n)
  {
    SameChars(o, a, t, b, n);
    assert forall k :: b + LeadLength(r) <= k < b + n ==> t[k] == o[k - b + a];
  }

  lemma ShiftBearer(o: string, a: nat, t: string, b: nat, n: nat)
    requires BearerMatch(o, a, a + n) && SameText(o, a, t, b, n) && Boundary(t, b)
    ensures BearerMatch(t, b, b + n)
  {
    var w :| a + 6 < w <= a + n && BearerSplit(o, a, w, a + n);
    SameChars(o, a, t, b, n);
    assert forall k :: b <= k < b + n ==> t[k] == o[k - b + a];
    assert BearerSplit(t, b, w - a + b, b + n);
  }

  lemma ShiftMarker(o: string, a: nat, t: string, b: nat, begin: bool, n: nat)
    requires Marker(o, a, begin, a + n) && SameText(o, a, t, b, n)
    ensures Marker(t, b, begin, b + n)
  {
    SameChars(o, a, t, b, n);
    var l := |Lead(begin)|;
    assert t[b..b + l] == o[a..a + l];
    assert t[b + n - 16..b + n - 5] == o[a + n - 16..a + n - 5];
    assert t[b + n - 5..b + n] == o[a + n - 5..a + n];
    assert forall k :: b + l <= k < b + n - 5 ==> t[k] == o[k - b + a];
  }

  lemma SubText(o: string, a: nat, t: string, b: nat, n: nat, from: nat, m: nat)
    requires SameText(o, a, t, b, n) && from + m <= n
    ensures SameText(o, a + from, t, b + from, m)
  {
    SameChars(o, a, t, b, n);
    var x, y := o[a + from..a + from + m], t[b + from..b + from + m];
    forall k | 0 <= k < m
      ensures x[k] == y[k]
    {
      assert x[k] == o[a + from + k];
    }
    assert x == y;
  }

  lemma ShiftSplit(o: string, a: nat, t: string, b: nat, n: nat, hl: nat, fo: nat)
    requires PemSplit(o, a, a + hl, a + fo, a + n) && hl <= fo < n && SameText(o, a, t, b, n)
    ensures PemSplit(t, b, b + hl, b + fo, b + n)
  {
    hide Marker;
    SubText(o, a, t, b, n, 0, hl);
    SubText(o, a, t, b, n, fo, n - fo);
    hide SameText;
    ShiftMarker(o, a, t, b, true, hl);
    ShiftMarker(o, a + fo, t, b + fo, false, n - fo);
  }

  lemma ShiftPem(o: string, a: nat, t: string, b: nat, n: nat)
    requires PemMatch(o, a, a + n) && SameText(o, a, t, b, n)
    ensures PemMatch(t, b, b + n)
  {
    hide SameText;
    hide Marker;
    hide PemSplit;
    var h, f :| a <= h <= f <= a + n && PemSplit(o, a, h, f, a + n);
    SplitNotEmpty(o, a, h, f, a + n);
    ShiftSplit(o, a, t, b, n, h - a, f - a);
  }

  lemma SplitNotEmpty(t: string, i: nat, h: nat, f: nat, e: nat)
    requires PemSplit(t, i, h, f, e)
    ensures f < e
  {
  }

  // ----- How a match begins -----

  lemma TokenStartsWithWord(r: Rule, t: string, i: nat, e: nat)
    requires IsMatch(r, t, i, e) && !r.Pem?
    ensures i < e <= |t| && Word(t[i]) && Boundary(t, i) && (i > 0 ==> !Word(t[i - 1]))
  {
    if r.Bearer? {
      var w :| i + 6 < w <= e && BearerSplit(t, i, w, e);
    }
  }

  lemma PemStartsWithDash(t: string, i: nat, e: nat)
    requires PemMatch(t, i, e)
    ensures i < e <= |t| && t[i] == '-' && t[e - 1] == '-'
  {
    var h, f :| i <= h <= f <= e && PemSplit(t, i, h, f, e);
    assert t[i] == t[i..i + 11][0];
    assert t[e - 1] == t[e - 5..e][4];
  }

  lemma PemNeedsDash(t: string, i: nat, e: nat)
    requires i < |t| && t[i] != '-'
    ensures !PemMatch(t, i, e)
  {
    assert forall h :: Marker(t, i, true, h) ==> t[i..i + 11][0] == '-';
  }

  // A position right after a match, as the rest of the scan sees it: if a word begins there, there
  // is a word boundary in the original text.
  lemma AfterMatch(r: Rule, t: string, i: nat)
    requires PickEnd(r, t, i).Some?
    ensures var e := PickEnd(r, t, i).value; i < e <= |t| && (e < |t| && Word(t[e]) ==> Boundary(t, e))
  {
    PickSound(r, t, i);
    var e := PickEnd(r, t, i).value;
    if r.Bearer? {
      if e < |t| && Word(t[e]) {
        var w :| i + 6 < w <= e && BearerSplit(t, i, w, e);
        assert BearerSplit(t, i, w, e + 1);
        assert IsMatch(Bearer, t, i, e + 1);
        PickComplete(Bearer, t, i, e + 1);
        assert false;
      }
    } else if r.Pem? {
      PemStartsWithDash(t, i, e);
    }
  }

  // ----- Copied runs -----

  // How many characters the scan copies from `i` before its next match or the end.
  function CopyLength(r: Rule, t: string, i: nat): nat
    requires i <= |t|
    decreases |t| - i
  {
    if i == |t| || PickEnd(r, t, i).Some? then 0 else 1 + CopyLength(r, t, i + 1)
  }

  lemma CopyStep(r: Rule, t: string, i: nat)
    requires i < |t| && PickEnd(r, t, i).None?
    ensures ReplaceFrom(r, t, i) == [t[i]] + ReplaceFrom(r, t, i + 1)
  {
    hide PickEnd;
  }

  lemma {:induction false} Copies(r: Rule, t: string, i: nat)
    requires i <= |t|
    ensures var n := CopyLength(r, t, i);
      && i + n <= |t|
      && (i + n == |t| || PickEnd(r, t, i + n).Some?)
      && ReplaceFrom(r, t, i) == t[i..i + n] + ReplaceFrom(r, t, i + n)
    decreases |t| - i
  {
    hide PickEnd;
    hide ReplaceFrom;
    if i == |t| || PickEnd(r, t, i).Some? {
      assert t[i..i] == "";
    } else {
      CopyStep(r, t, i);
      Copies(r, t, i + 1);
      var n := CopyLength(r, t, i + 1);
      var rest := ReplaceFrom(r, t, i + 1 + n);
      assert t[i..i + 1 + n] == [t[i]] + t[i + 1..i + 1 + n];
      assert [t[i]] + (t[i + 1..i + 1 + n] + rest) == ([t[i]] + t[i + 1..i + 1 + n]) + rest;
    }
  }

  // ----- Replacements hold no match -----

  predicate Quiet(c: char) {
    c != 's' && c != 'x' && c != 'g' && c != 'b' && c != '-'
  }

  lemma ReplacementChars(r: Rule, d: nat)
    requires d < |Replacement(r)|
    ensures Quiet(Replacement(r)[d])
    ensures Replacement(r)[d] == 'A' ==>
      d + 1 < |Replacement(r)| && (Replacement(r)[d + 1] == 'C' || Replacement(r)[d + 1] == 'T')
    ensures Replacement(r)[d] == 'B' ==> r.Bearer? && d == 0
  {
  }

  // No pattern matches from inside an inserted replacement.
  lemma NothingStartsInside(p: Rule, r: Rule, o: string, a: nat, d: nat, e: nat)
    requires SameText(o, a, Replacement(r), 0, |Replacement(r)|) && d < |Replacement(r)|
    ensures !IsMatch(p, o, a + d, e)
  {
    var rep := Replacement(r);
    SameChars(o, a, rep, 0, |rep|);
    ReplacementChars(r, d);
    assert o[a + d] == rep[d];
    assert d + 1 < |rep| ==> o[a + d + 1] == rep[d + 1];
    assert r.Bearer? ==> rep[6] == ' ' && rep[7] == '[' && o[a + 6] == ' ' && o[a + 7] == '[';
    hide Replacement;
    PemNeedsDash(o, a + d, e);
  }

  // ----- No new match -----

  function Rank(r: Rule): nat {
    match r
    case Sk => 0
    case Xai => 1
    case Aiza => 2
    case Akia => 3
    case Bearer => 4
    case Gh => 5
    case Pem => 6
  }

  // From `a` on, `o` is what the scan of `t` writes from `i` on.
  predicate Layout(r: Rule, t: string, i: nat, o: string, a: nat) {
    i <= |t| && a <= |o| && o[a..] == ReplaceFrom(r, t, i)
  }

  // What stands to the left: the start, the same character, or the end of a replacement.
  predicate LeftOk(o: string, a: nat, t: string, i: nat)
    requires a <= |o| && i <= |t|
  {
    || (a == 0 && i == 0)
    || (a > 0 && i > 0 && o[a - 1] == t[i - 1])
    || (a > 0 && o[a - 1] == ']' && (i < |t| && Word(t[i]) ==> Boundary(t, i)))
  }

  lemma Slices(o: string, a: nat, x: string, y: string)
    requires a <= |o| && o[a..] == x + y
    ensures a + |x| <= |o| && o[a..a + |x|] == x && o[a + |x|..] == y
  {
    assert |o[a..]| == |x| + |y|;
    assert o[a..a + |x|] == o[a..][..|x|];
    assert o[a + |x|..] == o[a..][|x|..];
  }

  // The copied run and, behind it, the end of the text or a replacement.
  lemma LayoutParts(r: Rule, t: string, i: nat, o: string, a: nat) returns (n: nat)
    requires Layout(r, t, i, o, a) && i < |t| && PickEnd(r, t, i).None?
    ensures n >= 1 && SameText(o, a, t, i, n)
    ensures i + n == |t| ==> |o| == a + n
    ensures i + n < |t| ==> PickEnd(r, t, i + n).Some? && SameText(o, a + n, Replacement(r), 0, |Replacement(r)|)
  {
    hide PickEnd;
    hide Replacement;
    n := CopyLength(r, t, i);
    Copies(r, t, i);
    Slices(o, a, t[i..i + n], ReplaceFrom(r, t, i + n));
    if i + n < |t| {
      AfterMatch(r, t, i + n);
      ReplacedStep(r, t, i + n);
      hide ReplaceFrom;
      var rep := Replacement(r);
      Slices(o, a + n, rep, ReplaceFrom(r, t, PickEnd(r, t, i + n).value));
      assert rep[0..|rep|] == rep;
    }
  }

  lemma ReplacedStep(r: Rule, t: string, i: nat)
    requires i < |t| && PickEnd(r, t, i).Some? && i < PickEnd(r, t, i).value
    ensures ReplaceFrom(r, t, i) == Replacement(r) + ReplaceFrom(r, t, PickEnd(r, t, i).value)
  {
    hide PickEnd;
    hide Replacement;
  }

  lemma LeftBoundary(p: Rule, o: string, a: nat, oe: nat, t: string, i: nat)
    requires IsMatch(p, o, a, oe) && !p.Pem? && i < |t| && a < |o| && o[a] == t[i] && LeftOk(o, a, t, i)
    ensures Boundary(t, i)
  {
    TokenStartsWithWord(p, o, a, oe);
  }

  // The next character of the original begins a match, that of the output a replacement.
  lemma EdgeBoundary(r: Rule, t: string, q: nat, o: string, b: nat)
    requires 0 < q < |t| && 0 < b < |o| && o[b - 1] == t[q - 1] && o[b] == Replacement(r)[0]
    requires PickEnd(r, t, q).Some? && Boundary(o, b)
    ensures Boundary(t, q)
  {
    hide PickEnd;
    assert Replacement(r)[0] == (if r.Bearer? then 'B' else '[');
    hide Replacement;
    PickSound(r, t, q);
    if r.Pem? {
      PemStartsWithDash(t, q, PickEnd(r, t, q).value);
    } else {
      TokenStartsWithWord(r, t, q, PickEnd(r, t, q).value);
    }
  }

  // The match ends with the copied run: what follows is the same character, or two non-words, or
  // a word begins on both sides.
  lemma RightBoundary(r: Rule, t: string, i: nat, o: string, a: nat, n: nat, m: nat)
    requires SameText(o, a, t, i, n) && 1 <= m <= n && Boundary(o, a + m)
    requires i + n == |t| ==> |o| == a + n
    requires i + n < |t| ==> PickEnd(r, t, i + n).Some? && SameText(o, a + n, Replacement(r), 0, |Replacement(r)|)
    ensures Boundary(t, i + m)
  {
    hide PickEnd;
    hide Replacement;
    hide SameText;
    SameBounds(o, a, t, i, n);
    SameChar(o, a, t, i, n, m - 1);
    if m < n {
      SameChar(o, a, t, i, n, m);
    } else if i + n < |t| {
      RightEdge(r, t, i + n, o, a + n);
    }
  }

  lemma SameBounds(o: string, a: nat, t: string, b: nat, n: nat)
    requires SameText(o, a, t, b, n)
    ensures a + n <= |o| && b + n <= |t|
  {
  }

  // Where the copied run ends, the output goes on with a replacement.
  lemma RightEdge(r: Rule, t: string, q: nat, o: string, b: nat)
    requires 0 < q < |t| && 0 < b <= |o| && o[b - 1] == t[q - 1] && Boundary(o, b)
    requires PickEnd(r, t, q).Some? && SameText(o, b, Replacement(r), 0, |Replacement(r)|)
    ensures Boundary(t, q)
  {
    hide PickEnd;
    assert |Replacement(r)| > 0;
    SameChar(o, b, Replacement(r), 0, |Replacement(r)|, 0);
    SameBounds(o, b, Replacement(r), 0, |Replacement(r)|);
    hide Replacement;
    hide SameText;
    EdgeBoundary(r, t, q, o, b);
  }

  // A match inside the copied run is a match of the original.
  lemma ForwardInside(p: Rule, r: Rule, t: string, i: nat, o: string, a: nat, n: nat, oe: nat)
    requires SameText(o, a, t, i, n) && LeftOk(o, a, t, i)
    requires IsMatch(p, o, a, oe) && a < oe <= a + n
    requires i + n == |t| ==> |o| == a + n
    requires i + n < |t| ==> PickEnd(r, t, i + n).Some? && SameText(o, a + n, Replacement(r), 0, |Replacement(r)|)
    ensures IsMatch(p, t, i, i + (oe - a))
  {
    hide PickEnd;
    hide Replacement;
    hide PemMatch;
    hide TokenMatch;
    hide BearerMatch;
    SubText(o, a, t, i, n, 0, oe - a);
    if p.Pem? {
      ShiftPem(o, a, t, i, oe - a);
    } else {
      SameChar(o, a, t, i, n, 0);
      LeftBoundary(p, o, a, oe, t, i);
      if p.Bearer? {
        ShiftBearer(o, a, t, i, oe - a);
      } else {
        EndBoundary(p, o, a, oe);
        RightBoundary(r, t, i, o, a, n, oe - a);
        ShiftToken(p, o, a, t, i, oe - a);
      }
    }
  }

  lemma EndBoundary(p: Rule, t: string, i: nat, e: nat)
    requires IsMatch(p, t, i, e) && TokenRule(p)
    ensures e <= |t| && Boundary(t, e)
  {
  }

  lemma NoBracket(p: Rule, t: string, i: nat, e: nat, k: nat)
    requires IsMatch(p, t, i, e) && !p.Pem? && i <= k < e
    ensures k < |t| && t[k] != '['
  {
    if p.Bearer? {
      var w :| i + 6 < w <= e && BearerSplit(t, i, w, e);
    }
  }

  lemma MarkerNoBracket(t: string, i: nat, begin: bool, e: nat, k: nat)
    requires Marker(t, i, begin, e) && i <= k < e
    ensures t[k] != '['
  {
    var l := |Lead(begin)|;
    if k < i + l {
      assert t[k] == t[i..i + l][k - i] == Lead(begin)[k - i];
    } else if k >= e - 5 {
      assert t[k] == t[e - 5..e][k - (e - 5)];
    }
  }

  // A header never reaches past a bracket, so it lies in the copied run.
  lemma HeaderCopied(t: string, i: nat, o: string, a: nat, n: nat, h: nat)
    requires Marker(o, a, true, h) && SameText(o, a, t, i, n) && a + n < |o| && o[a + n] == '['
    ensures h <= a + n && Marker(t, i, true, h - a + i)
  {
    if h > a + n {
      MarkerNoBracket(o, a, true, h, a + n);
    }
    SubText(o, a, t, i, n, 0, h - a);
    ShiftMarker(o, a, t, i, true, h - a);
  }

  // A private-key span that begins in a copied run and goes on past it: the next match of the
  // original brings a footer.
  lemma ForwardPem(t: string, i: nat, o: string, a: nat, n: nat, oe: nat) returns (e: nat)
    requires PemMatch(o, a, oe) && a + n < oe && SameText(o, a, t, i, n)
    requires i + n < |t| && PickEnd(Pem, t, i + n).Some? && SameText(o, a + n, Replacement(Pem), 0, |Replacement(Pem)|)
    ensures PemMatch(t, i, e)
  {
    hide PickEnd;
    SameChar(o, a + n, Replacement(Pem), 0, |Replacement(Pem)|, 0);
    assert o[a + n] == '[';
    hide Replacement;
    hide SameText;
    e := PickEnd(Pem, t, i + n).value;
    PickSound(Pem, t, i + n);
    var h2, f2 :| i + n <= h2 <= f2 <= e && PemSplit(t, i + n, h2, f2, e);
    var h, f :| a <= h <= f <= oe && PemSplit(o, a, h, f, oe);
    HeaderCopied(t, i, o, a, n, h);
    hide Marker;
    assert PemSplit(t, i, h - a + i, f2, e);
  }

  // The replaced word and the word that replaced it agree up to case.
  lemma BearerAt(t: string, q: nat)
    requires PickEnd(Bearer, t, q).Some?
    ensures q + 7 <= |t| && BearerWord(t, q) && Space(t[q + 6]) && (q > 0 ==> !Word(t[q - 1]))
  {
    PickSound(Bearer, t, q);
    var e := PickEnd(Bearer, t, q).value;
    TokenStartsWithWord(Bearer, t, q, e);
    var w :| q + 6 < w <= e && BearerSplit(t, q, w, e);
  }

  lemma BearerReplacement(o: string, b: nat)
    requires SameText(o, b, Replacement(Bearer), 0, |Replacement(Bearer)|)
    ensures b + 8 <= |o|
    ensures o[b] == 'B' && o[b + 1] == 'e' && o[b + 2] == 'a' && o[b + 3] == 'r' && o[b + 4] == 'e' && o[b + 5] == 'r'
    ensures o[b + 6] == ' ' && o[b + 7] == '['
  {
    SameChars(o, b, Replacement(Bearer), 0, |Replacement(Bearer)|);
  }

  // A token that runs into "Bearer [REDACTED]" ends behind the word.
  lemma TokenMeetsBearer(p: Rule, o: string, a: nat, n: nat, oe: nat)
    requires TokenMatch(p, o, a, oe) && 1 <= n && a + n < oe && !Word(o[a + n - 1])
    requires SameText(o, a + n, Replacement(Bearer), 0, |Replacement(Bearer)|)
    ensures oe == a + n + 6 && LeadLength(p) <= n && !p.Akia?
  {
    BearerReplacement(o, a + n);
    hide Replacement;
    hide SameText;
    assert n >= LeadLength(p);
    SpaceEndsToken(p, o, a, oe, a + n + 6);
  }

  lemma TokenExtends(p: Rule, o: string, a: nat, n: nat, t: string, i: nat)
    requires i + n + 7 <= |t| && TokenMatch(p, o, a, a + n + 6) && LeadLength(p) <= n && !p.Akia? && Boundary(t, i)
    requires forall k :: a <= k < a + n ==> o[k] == t[k - a + i]
    requires BearerWord(t, i + n) && Space(t[i + n + 6])
    ensures TokenMatch(p, t, i, i + n + 6)
  {
    assert forall k :: i <= k < i + n ==> t[k] == o[k - i + a];
    assert forall k :: i + n <= k < i + n + 6 ==> Letter(t[k]);
  }

  // An earlier token pattern that runs into "Bearer [REDACTED]" ends after the word, and so it does
  // in the original.
  lemma ForwardTokenBearer(p: Rule, t: string, i: nat, o: string, a: nat, n: nat, oe: nat)
    requires TokenRule(p) && TokenMatch(p, o, a, oe) && n >= 1 && a + n < oe && SameText(o, a, t, i, n)
      && Boundary(t, i)
    requires i + n < |t| && PickEnd(Bearer, t, i + n).Some?
    requires SameText(o, a + n, Replacement(Bearer), 0, |Replacement(Bearer)|)
    ensures TokenMatch(p, t, i, i + n + 6)
  {
    hide PickEnd;
    hide Replacement;
    hide TokenMatch;
    hide BearerWord;
    BearerAt(t, i + n);
    SameChars(o, a, t, i, n);
    assert o[a + n - 1] == t[i + n - 1];
    TokenMeetsBearer(p, o, a, n, oe);
    TokenExtends(p, o, a, n, t, i);
  }

  lemma SpaceEndsToken(p: Rule, t: string, i: nat, e: nat, k: nat)
    requires TokenMatch(p, t, i, e) && i <= k < |t| && t[k] == ' '
    ensures e <= k
  {
  }

  // The same for the bearer pattern itself, which needs no boundary at its end.
  lemma ForwardBearer(t: string, i: nat, o: string, a: nat, n: nat, oe: nat)
    requires BearerMatch(o, a, oe) && n >= 1 && a + n < oe && SameText(o, a, t, i, n) && Boundary(t, i)
    requires i + n < |t| && PickEnd(Bearer, t, i + n).Some?
    requires SameText(o, a + n, Replacement(Bearer), 0, |Replacement(Bearer)|)
    ensures BearerMatch(t, i, i + (oe - a))
  {
    hide PickEnd;
    hide Replacement;
    hide BearerSplit;
    hide BearerWord;
    BearerAt(t, i + n);
    SameChars(o, a, t, i, n);
    assert o[a + n - 1] == t[i + n - 1];
    var w :| a + 6 < w <= oe && BearerSplit(o, a, w, oe);
    BearerMeetsBearer(o, a, w, n, oe);
    BearerExtends(o, a, w, n, oe, t, i);
  }

  lemma BearerMeetsBearer(o: string, a: nat, w: nat, n: nat, oe: nat)
    requires BearerSplit(o, a, w, oe) && 1 <= n && a + n < oe && !Word(o[a + n - 1])
    requires SameText(o, a + n, Replacement(Bearer), 0, |Replacement(Bearer)|)
    ensures w <= a + n && oe <= a + n + 6
  {
    BearerReplacement(o, a + n);
    hide Replacement;
    hide SameText;
    assert n >= 7;
    assert w <= a + n;
  }

  lemma BearerExtends(o: string, a: nat, w: nat, n: nat, oe: nat, t: string, i: nat)
    requires BearerSplit(o, a, w, oe) && w <= a + n < oe <= a + n + 6 && i + n + 6 <= |t| && Boundary(t, i)
    requires forall k :: a <= k < a + n ==> o[k] == t[k - a + i]
    requires BearerWord(t, i + n)
    ensures BearerSplit(t, i, w - a + i, i + (oe - a))
  {
    assert forall k :: i <= k < i + n ==> t[k] == o[k - i + a];
    assert forall k :: i + n <= k < i + n + 6 ==> Letter(t[k]);
  }

  // A match that runs past the copied run.
  lemma ForwardAcross(p: Rule, r: Rule, t: string, i: nat, o: string, a: nat, n: nat, oe: nat) returns (e: nat)
    requires n >= 1 && SameText(o, a, t, i, n) && LeftOk(o, a, t, i)
    requires i + n < |t| && PickEnd(r, t, i + n).Some? && SameText(o, a + n, Replacement(r), 0, |Replacement(r)|)
    requires IsMatch(p, o, a, oe) && Rank(p) <= Rank(r) && a + n < oe
    ensures IsMatch(p, t, i, e)
  {
    hide PickEnd;
    hide BearerMatch;
    hide TokenMatch;
    hide PemMatch;
    SameChar(o, a, t, i, n, 0);
    if p.Pem? {
      hide Replacement;
      e := ForwardPem(t, i, o, a, n, oe);
    } else {
      LeftBoundary(p, o, a, oe, t, i);
      NoBracket(p, o, a, oe, a + n);
      assert |Replacement(r)| > 0 && (!r.Bearer? ==> Replacement(r)[0] == '[');
      hide Replacement;
      SameChar(o, a + n, Replacement(r), 0, |Replacement(r)|, 0);
      hide SameText;
      assert r.Bearer?;
      if p.Bearer? {
        ForwardBearer(t, i, o, a, n, oe);
        e := i + (oe - a);
      } else {
        ForwardTokenBearer(p, t, i, o, a, n, oe);
        e := i + n + 6;
      }
    }
  }

  // A match of an earlier (or the same) pattern that begins on a copied character was there before.
  lemma Forward(p: Rule, r: Rule, t: string, i: nat, o: string, a: nat, oe: nat) returns (e: nat)
    requires Layout(r, t, i, o, a) && i < |t| && PickEnd(r, t, i).None? && LeftOk(o, a, t, i)
    requires IsMatch(p, o, a, oe) && Rank(p) <= Rank(r)
    ensures IsMatch(p, t, i, e)
  {
    hide PickEnd;
    hide Replacement;
    hide IsMatch;
    var n := LayoutParts(r, t, i, o, a);
    hide ReplaceFrom;
    MatchInText(p, o, a, oe);
    hide SameText;
    if oe <= a + n {
      ForwardInside(p, r, t, i, o, a, n, oe);
      e := i + (oe - a);
    } else {
      e := ForwardAcross(p, r, t, i, o, a, n, oe);
    }
  }

  // Past a match the scan goes on behind the inserted replacement.
  lemma PastReplacement(r: Rule, t: string, i: nat, o: string, a: nat) returns (e: nat, b: nat)
    requires Layout(r, t, i, o, a) && i < |t| && PickEnd(r, t, i).Some?
    ensures i < e <= |t| && b == a + |Replacement(r)| && b > a
    ensures Layout(r, t, e, o, b) && LeftOk(o, b, t, e)
    ensures SameText(o, a, Replacement(r), 0, |Replacement(r)|)
  {
    AfterMatch(r, t, i);
    hide PickEnd;
    e := PickEnd(r, t, i).value;
    var rep := Replacement(r);
    b := a + |rep|;
    assert rep[|rep| - 1] == ']';
    hide Replacement;
    ReplacedStep(r, t, i);
    Slices(o, a, rep, ReplaceFrom(r, t, e));
    assert rep[0..|rep|] == rep;
    assert o[b - 1] == o[a..b][|rep| - 1];
  }

  lemma PastCopy(r: Rule, t: string, i: nat, o: string, a: nat)
    requires Layout(r, t, i, o, a) && i < |t| && PickEnd(r, t, i).None?
    ensures Layout(r, t, i + 1, o, a + 1) && LeftOk(o, a + 1, t, i + 1)
  {
    CopyStep(r, t, i);
    hide PickEnd;
    hide ReplaceFrom;
    assert o[a] == o[a..][0] == t[i];
    assert o[a + 1..] == o[a..][1..] == ReplaceFrom(r, t, i + 1);
  }

  lemma NothingAtEnd(p: Rule, r: Rule, t: string, o: string, a: nat, m: nat, oe: nat)
    requires Layout(r, t, |t|, o, a) && a <= m
    ensures !IsMatch(p, o, m, oe)
  {
    assert |o[a..]| == 0;
    if IsMatch(p, o, m, oe) {
      MatchInText(p, o, m, oe);
    }
  }

  lemma MatchInText(p: Rule, t: string, i: nat, e: nat)
    requires IsMatch(p, t, i, e)
    ensures i < e <= |t|
  {
    if p.Pem? { PemStartsWithDash(t, i, e); } else { TokenStartsWithWord(p, t, i, e); }
  }

  // Wherever in the output a match begins, the original has one at a place the scan copied.
  lemma {:induction false} Locate(p: Rule, r: Rule, t: string, i: nat, o: string, a: nat, m: nat, oe: nat)
    returns (j: nat, e: nat)
    requires Layout(r, t, i, o, a) && LeftOk(o, a, t, i) && a <= m
    requires IsMatch(p, o, m, oe) && Rank(p) <= Rank(r)
    ensures PickEnd(r, t, j).None? && IsMatch(p, t, j, e)
    decreases |t| - i
  {
    hide IsMatch;
    hide PickEnd;
    j, e := 0, 0;
    if i == |t| {
      NothingAtEnd(p, r, t, o, a, m, oe);
    } else if PickEnd(r, t, i).Some? {
      var e1, b := PastReplacement(r, t, i, o, a);
      hide Layout;
      hide LeftOk;
      if m < b {
        NothingStartsInside(p, r, o, a, m - a, oe);
      }
      j, e := Locate(p, r, t, e1, o, b, m, oe);
    } else if m == a {
      j := i;
      e := Forward(p, r, t, i, o, a, oe);
    } else {
      PastCopy(r, t, i, o, a);
      hide Layout;
      hide LeftOk;
      j, e := Locate(p, r, t, i + 1, o, a + 1, m, oe);
    }
  }

  // Replacing removes every match of its own pattern and brings none of an earlier one.
  lemma ReplaceRemoves(r: Rule, t: string)
    ensures NoMatch(r, ReplaceAll(r, t))
  {
    var o := ReplaceAll(r, t);
    forall m, oe
      ensures !IsMatch(r, o, m, oe)
    {
      if IsMatch(r, o, m, oe) {
        assert o[0..] == o;
        var j, e := Locate(r, r, t, 0, o, 0, m, oe);
        PickComplete(r, t, j, e);
      }
    }
  }

  lemma ReplaceKeepsOut(p: Rule, r: Rule, t: string)
    requires Rank(p) < Rank(r) && NoMatch(p, t)
    ensures NoMatch(p, ReplaceAll(r, t))
  {
    var o := ReplaceAll(r, t);
    forall m, oe
      ensures !IsMatch(p, o, m, oe)
    {
      if IsMatch(p, o, m, oe) {
        assert o[0..] == o;
        var j, e := Locate(p, r, t, 0, o, 0, m, oe);
      }
    }
  }

  // ----- Texts -----

  ghost predicate Clean(t: string) {
    forall r: Rule :: NoMatch(r, t)
  }

  // After redaction not one of the seven patterns matches anywhere.
  lemma RedactedTextIsClean(t: string)
    ensures Clean(RedactText(t))
  {
    hide IsMatch;
    hide ReplaceAll;
    var t1 := ReplaceAll(Sk, t);
    var t2 := ReplaceAll(Xai, t1);
    var t3 := ReplaceAll(Aiza, t2);
    var t4 := ReplaceAll(Akia, t3);
    var t5 := ReplaceAll(Bearer, t4);
    var t6 := ReplaceAll(Gh, t5);
    assert RedactText(t) == ReplaceAll(Pem, t6);
    hide NoMatch;
    ReplaceRemoves(Sk, t);
    Keep(Xai, t1);
    ReplaceRemoves(Xai, t1);
    Keep(Aiza, t2);
    ReplaceRemoves(Aiza, t2);
    Keep(Akia, t3);
    ReplaceRemoves(Akia, t3);
    Keep(Bearer, t4);
    ReplaceRemoves(Bearer, t4);
    Keep(Gh, t5);
    ReplaceRemoves(Gh, t5);
    Keep(Pem, t6);
    ReplaceRemoves(Pem, t6);
    forall r: Rule
      ensures NoMatch(r, RedactText(t))
    {
      match r {
        case Sk =>
        case Xai =>
        case Aiza =>
        case Akia =>
        case Bearer =>
        case Gh =>
        case Pem =>
      }
    }
  }

  lemma Keep(r: Rule, t: string)
    ensures forall p: Rule :: Rank(p) < Rank(r) && NoMatch(p, t) ==> NoMatch(p, ReplaceAll(r, t))
  {
    hide NoMatch;
    hide ReplaceAll;
    forall p: Rule | Rank(p) < Rank(r) && NoMatch(p, t)
      ensures NoMatch(p, ReplaceAll(r, t))
    {
      ReplaceKeepsOut(p, r, t);
    }
  }

  lemma {:induction false} NothingToReplace(r: Rule, t: string, i: nat)
    requires NoMatch(r, t) && i <= |t|
    ensures ReplaceFrom(r, t, i) == t[i..]
    decreases |t| - i
  {
    if i < |t| {
      PickSound(r, t, i);
      hide PickEnd;
      NothingToReplace(r, t, i + 1);
      assert t[i..] == [t[i]] + t[i + 1..];
    }
  }

  lemma CleanTextIsKept(t: string)
    requires Clean(t)
    ensures RedactText(t) == t
  {
    hide NoMatch;
    hide ReplaceFrom;
    assert t[0..] == t;
    forall r: Rule
      ensures ReplaceAll(r, t) == t
    {
      NothingToReplace(r, t, 0);
    }
  }

  lemma RedactTextIdempotent(t: string)
    ensures RedactText(RedactText(t)) == RedactText(t)
  {
    RedactedTextIsClean(t);
    CleanTextIsKept(RedactText(t));
  }

  // ----- Trees -----

  // No string anywhere matches a pattern, and whatever sits under a secret key is the mark.
  ghost predicate CleanTree(v: Json) {
    match v
    case JString(s) => Clean(s)
    case JArray(items) => forall i :: 0 <= i < |items| ==> CleanTree(items[i])
    case JObject(fields) => forall i :: 0 <= i < |fields| ==>
      if SecretKey(fields[i].key) then fields[i].value == JString("[REDACTED]") else CleanTree(fields[i].value)
    case _ => true
  }

  lemma {:induction false} RedactedTreeIsClean(v: Json)
    ensures CleanTree(RedactSecrets(v))
  {
    hide Clean;
    hide RedactText;
    hide SecretKey;
    match v {
      case JString(s) => RedactedTextIsClean(s);
      case JArray(items) =>
        forall i | 0 <= i < |items|
          ensures CleanTree(RedactSecrets(items[i]))
        {
          RedactedTreeIsClean(items[i]);
        }
      case JObject(fields) =>
        forall i | 0 <= i < |fields|
          ensures CleanTree(RedactSecrets(fields[i].value))
        {
          RedactedTreeIsClean(fields[i].value);
        }
      case _ =>
    }
  }

  lemma {:induction false} CleanTreeIsKept(v: Json)
    requires CleanTree(v)
    ensures RedactSecrets(v) == v
  {
    hide Clean;
    hide RedactText;
    hide SecretKey;
    match v {
      case JString(s) => CleanTextIsKept(s);
      case JArray(items) =>
        forall i | 0 <= i < |items|
          ensures RedactSecrets(items[i]) == items[i]
        {
          CleanTreeIsKept(items[i]);
        }
      case JObject(fields) =>
        forall i | 0 <= i < |fields|
          ensures RedactField(fields[i]) == fields[i]
        {
          if !SecretKey(fields[i].key) {
            CleanTreeIsKept(fields[i].value);
          }
        }
      case _ =>
    }
  }

  // Snapshots are written redacted, read back, and redacted again when shown: a record shows the
  // same after a restart as before it.
  lemma RedactSecretsIdempotent(v: Json)
    ensures RedactSecrets(RedactSecrets(v)) == RedactSecrets(v)
  {
    RedactedTreeIsClean(v);
    CleanTreeIsKept(RedactSecrets(v));
  }
}
