/** Quoting the bare value tokens a device leaves in its JSON. */
module Repair {
  import opened Common

  // ---- The two grammars -------------------------------------------------------------------

  /** White space as a Unicode pattern sees it. */
  predicate IsSpace(ch: char) {
    || '\t' <= ch <= '\r' || '\U{1c}' <= ch <= ' ' || ch == '\U{85}' || ch == '\U{a0}' || ch == '\U{1680}'
    || '\U{2000}' <= ch <= '\U{200a}' || ch == '\U{2028}' || ch == '\U{2029}' || ch == '\U{202f}'
    || ch == '\U{205f}' || ch == '\U{3000}'
  }

  predicate Digit(ch: char) { '0' <= ch <= '9' }

  predicate Starts(ch: char) { 'A' <= ch <= 'Z' || 'a' <= ch <= 'z' || ch == '_' || Digit(ch) }

  predicate Continues(ch: char) { Starts(ch) || ch == '.' || ch == '-' }

  predicate Closes(ch: char) { ch == ',' || ch == '}' || ch == ']' }

  function SpaceLen(t: string): (n: nat)
    ensures n <= |t|
  {
    if t != "" && IsSpace(t[0]) then 1 + SpaceLen(t[1..]) else 0
  }

  function TokenLen(t: string): (n: nat)
    ensures n <= |t|
  {
    if t != "" && Continues(t[0]) then 1 + TokenLen(t[1..]) else 0
  }

  /** Where the run of digits from `i` on ends. */
  function DigitsEnd(t: string, i: nat): (n: nat)
    requires i <= |t|
    ensures i <= n <= |t|
    decreases |t| - i
  {
    if i < |t| && Digit(t[i]) then DigitsEnd(t, i + 1) else i
  }

  /** The integer part from `i` on; `i` itself when there is none. */
  function WholeEnd(t: string, i: nat): (n: nat)
    requires i <= |t|
    ensures i <= n <= |t|
  {
    if i < |t| && t[i] == '0' then i + 1 else DigitsEnd(t, i)
  }

  function FractionEnd(t: string, i: nat): (n: nat)
    requires i <= |t|
    ensures i <= n <= |t|
  {
    if i < |t| && t[i] == '.' && DigitsEnd(t, i + 1) > i + 1 then DigitsEnd(t, i + 1) else i
  }

  function ExponentEnd(t: string, i: nat): (n: nat)
    requires i <= |t|
    ensures i <= n <= |t|
  {
    if i < |t| && (t[i] == 'e' || t[i] == 'E') then
      var j := if i + 1 < |t| && (t[i + 1] == '+' || t[i + 1] == '-') then i + 2 else i + 1;
      if DigitsEnd(t, j) > j then DigitsEnd(t, j) else i
    else i
  }

  /** The strict number grammar (section 6 of RFC 8259). */
  predicate IsNumber(t: string) {
    var i := if t != "" && t[0] == '-' then 1 else 0;
    var w := WholeEnd(t, i);
    w > i && ExponentEnd(t, FractionEnd(t, w)) == |t|
  }

  predicate IsLiteral(t: string) { t == "true" || t == "false" || t == "null" }

  predicate Kept(token: string) { IsLiteral(token) || IsNumber(token) }

  // ---- The repair ---------------------------------------------------------------------------

  /** A bare value after a colon: white space, a token, and white space up to a comma or
      a closing bracket. */
  datatype Bare = Bare(gap: string, token: string, close: string)

  function Length(b: Bare): nat { |b.gap| + |b.token| + |b.close| }

  function Text(b: Bare): string { b.gap + b.token + b.close }

  /** White space up to and including what closes a value. */
  function CloseAt(t: string): (r: Option<string>)
    ensures r.Some? ==> r.value != "" && r.value <= t
  {
    var n := SpaceLen(t);
    if n < |t| && Closes(t[n]) then Some(t[..n + 1]) else None
  }

  function TokenAt(t: string): (r: Option<(string, string)>)
    ensures r.Some? ==> r.value.0 + r.value.1 <= t
  {
    var n := TokenLen(t);
    if t == "" || !Starts(t[0]) || CloseAt(t[n..]).None? then None else Some((t[..n], CloseAt(t[n..]).value))
  }

  function BareAt(t: string): (r: Option<Bare>)
    ensures r.Some? ==> 0 < Length(r.value) <= |t| && r.value.gap == t[..SpaceLen(t)] && r.value.token + r.value.close <= t[SpaceLen(t)..]
  {
    var n := SpaceLen(t);
    match TokenAt(t[n..])
    case None => None
    case Some((token, close)) =>
      assert token + close <= t[n..];
      if close == "" then None else Some(Bare(t[..n], token, close))
  }

  function Fixed(b: Bare): string {
    if Kept(b.token) then Text(b) else b.gap + "\"" + b.token + "\"" + b.close
  }

  function Repaired(s: string): string
    decreases |s|
  {
    if s == "" then "" else
      var t := s[1..];
      if s[0] == ':' && BareAt(t).Some? then
        var b := BareAt(t).value;
        ":" + (Fixed(b) + Repaired(t[Length(b)..]))
      else [s[0]] + Repaired(t)
  }

  // ---- Runs of one kind of character -------------------------------------------------------------

  predicate AllSpace(x: string) { forall i :: 0 <= i < |x| ==> IsSpace(x[i]) }

  predicate AllToken(x: string) { forall i :: 0 <= i < |x| ==> Continues(x[i]) }

  predicate Colonless(x: string) { forall i :: 0 <= i < |x| ==> x[i] != ':' }

  lemma {:induction false} SpaceRun(x: string, more: string)
    requires AllSpace(x) && (more == "" || !IsSpace(more[0]))
    ensures SpaceLen(x + more) == |x|
    decreases |x|
  {
    if x == "" {
      assert x + more == more;
    } else {
      assert (x + more)[1..] == x[1..] + more;
      SpaceRun(x[1..], more);
    }
  }

  lemma {:induction false} TokenRun(x: string, more: string)
    requires AllToken(x) && (more == "" || !Continues(more[0]))
    ensures TokenLen(x + more) == |x|
    decreases |x|
  {
    if x == "" {
      assert x + more == more;
    } else {
      assert (x + more)[1..] == x[1..] + more;
      TokenRun(x[1..], more);
    }
  }

  lemma {:induction false} SpaceStops(t: string)
    ensures AllSpace(t[..SpaceLen(t)]) && (SpaceLen(t) == |t| || !IsSpace(t[SpaceLen(t)]))
    decreases |t|
  {
    if t != "" && IsSpace(t[0]) {
      SpaceStops(t[1..]);
      assert t[..SpaceLen(t)] == [t[0]] + t[1..][..SpaceLen(t[1..])];
    }
  }

  lemma {:induction false} TokenStops(t: string)
    ensures AllToken(t[..TokenLen(t)]) && (TokenLen(t) == |t| || !Continues(t[TokenLen(t)]))
    decreases |t|
  {
    if t != "" && Continues(t[0]) {
      TokenStops(t[1..]);
      assert t[..TokenLen(t)] == [t[0]] + t[1..][..TokenLen(t[1..])];
    }
  }

  predicate IsToken(x: string) { x != "" && Starts(x[0]) && AllToken(x) }

  predicate IsClose(x: string) { x != "" && AllSpace(x[..|x| - 1]) && Closes(x[|x| - 1]) }

  predicate WellFormed(b: Bare) { AllSpace(b.gap) && IsToken(b.token) && IsClose(b.close) }

  lemma {:induction false} CloseFound(t: string)
    ensures CloseAt(t).Some? ==> IsClose(CloseAt(t).value)
  {
    SpaceStops(t);
  }

  lemma {:induction false} CloseIsFound(x: string, rest: string)
    requires IsClose(x)
    ensures CloseAt(x + rest) == Some(x)
  {
    var spaces, close := x[..|x| - 1], [x[|x| - 1]];
    assert x + rest == spaces + (close + rest);
    SpaceRun(spaces, close + rest);
    assert (x + rest)[..|x|] == x;
  }

  lemma {:induction false} TokenFound(t: string)
    ensures TokenAt(t).Some? ==> IsToken(TokenAt(t).value.0) && IsClose(TokenAt(t).value.1)
  {
    TokenStops(t);
    CloseFound(t[TokenLen(t)..]);
  }

  lemma {:induction false} TokenIsFound(x: string, close: string, rest: string)
    requires IsToken(x) && IsClose(close)
    ensures TokenAt(x + (close + rest)) == Some((x, close))
  {
    assert !Continues((close + rest)[0]);
    TokenRun(x, close + rest);
    assert (x + (close + rest))[|x|..] == close + rest && (x + (close + rest))[..|x|] == x;
    CloseIsFound(close, rest);
  }

  lemma {:induction false} PrefixParts(t: string, n: nat, front: string)
    requires n <= |t| && front <= t[n..]
    ensures t == t[..n] + front + t[n + |front|..]
  {
    assert t[n..][..|front|] == front;
  }

  /** What is found is well formed and lies at the front. */
  lemma {:induction false} BareFound(t: string)
    requires BareAt(t).Some?
    ensures var b := BareAt(t).value; WellFormed(b) && t == Text(b) + t[Length(b)..]
  {
    var n := SpaceLen(t);
    SpaceStops(t);
    TokenFound(t[n..]);
    var b := BareAt(t).value;
    PrefixParts(t, n, b.token + b.close);
    assert Text(b) == t[..n] + (b.token + b.close);
  }

  /** A well-formed bare value at the front is found, whatever follows. */
  lemma {:induction false} BareIsFound(b: Bare, rest: string)
    requires WellFormed(b)
    ensures BareAt(Text(b) + rest) == Some(b)
  {
    var tail := b.token + (b.close + rest);
    assert Text(b) + rest == b.gap + tail;
    SpaceRun(b.gap, tail);
    assert (b.gap + tail)[|b.gap|..] == tail && (b.gap + tail)[..|b.gap|] == b.gap;
    TokenIsFound(b.token, b.close, rest);
  }

  // ---- Where the repair starts over ------------------------------------------------------------

  lemma {:induction false} Regroup(a: string, b: string, c: string)
    ensures (a + b) + c == a + (b + c)
  {
  }

  lemma {:induction false} Regroup4(a: string, b: string, c: string, d: string)
    ensures ((a + b) + c) + d == a + (b + (c + d))
  {
    Regroup(a + b, c, d);
    Regroup(a, b, c + d);
  }

  lemma {:induction false} EmitsOther(ch: char, t: string)
    requires ch != ':'
    ensures Repaired([ch] + t) == [ch] + Repaired(t)
  {
    assert ([ch] + t)[1..] == t;
  }

  lemma {:induction false} PlainPart(p: string, rest: string)
    requires Colonless(p)
    ensures Repaired(p + rest) == p + Repaired(rest)
    decreases |p|
  {
    if p == "" {
      assert p + rest == rest;
    } else {
      PlainPart(p[1..], rest);
      EmitsOther(p[0], p[1..] + rest);
      assert p == [p[0]] + p[1..];
      Regroup([p[0]], p[1..], rest);
      Regroup([p[0]], p[1..], Repaired(rest));
    }
  }

  lemma {:induction false} RepairedBare(t: string, b: Bare, rest: string)
    requires BareAt(t) == Some(b) && rest == t[Length(b)..]
    ensures Repaired(":" + t) == ":" + (Fixed(b) + Repaired(rest))
  {
    assert (":" + t)[1..] == t;
  }

  lemma {:induction false} FrontIsBare(t: string, b: Bare)
    requires WellFormed(b) && Text(b) <= t
    ensures BareAt(t) == Some(b)
  {
    var x, rest := Text(b), t[|Text(b)|..];
    BareIsFound(b, rest);
    assert t == x + rest;
  }

  lemma {:induction false} AfterBare(b: Bare, rest: string)
    requires WellFormed(b)
    ensures Repaired(":" + (Text(b) + rest)) == ":" + (Fixed(b) + Repaired(rest))
  {
    BareIsFound(b, rest);
    RepairedBare(Text(b) + rest, b, rest);
  }

  lemma {:induction false} AfterColon(t: string)
    requires BareAt(t).None?
    ensures Repaired(":" + t) == ":" + Repaired(t)
  {
    assert (":" + t)[1..] == t;
  }

  lemma {:induction false} TextColonless(b: Bare)
    requires WellFormed(b)
    ensures Colonless(Text(b)) && forall i :: 0 <= i < |Text(b)| ==> Text(b)[i] != '"'
  {
    forall i | 0 <= i < |b.close| ensures b.close[i] != ':' && b.close[i] != '"' {
      assert i < |b.close| - 1 ==> b.close[i] == b.close[..|b.close| - 1][i];
    }
  }

  /** A colonless front is emitted as it is, so it was there before. */
  lemma {:induction false} FrontKept(t: string, x: string)
    requires Colonless(x) && x <= Repaired(t)
    ensures x <= t
    decreases |x|
  {
    if x != "" {
      assert Repaired(t)[0] == t[0];
      assert Repaired(t)[1..] == Repaired(t[1..]);
      FrontKept(t[1..], x[1..]);
      assert t == [t[0]] + t[1..];
    }
  }

  /** No bare value appears by repairing what follows a colon. */
  lemma {:induction false} NoBareAppears(t: string)
    ensures BareAt(Repaired(t)).Some? ==> BareAt(t).Some?
  {
    var r := Repaired(t);
    if BareAt(r).Some? {
      BareFound(r);
      var b := BareAt(r).value;
      TextColonless(b);
      FrontKept(t, Text(b));
      FrontIsBare(t, b);
    }
  }

  lemma {:induction false} QuoteIsNoBare(gap: string, rest: string)
    requires AllSpace(gap)
    ensures BareAt(gap + "\"" + rest).None?
  {
    var tail := "\"" + rest;
    assert gap + "\"" + rest == gap + tail;
    SpaceRun(gap, tail);
    assert (gap + tail)[|gap|..] == tail;
  }

  /** The characters of the two patterns by their code points: what a token starts with,
      what it goes on with, what closes a value and what counts as white space. */
  lemma {:induction false} ClassesByCode(ch: char)
    ensures var n := ch as int;
      && (Starts(ch) <==> 48 <= n <= 57 || 65 <= n <= 90 || 97 <= n <= 122 || n == 95)
      && (Continues(ch) <==> Starts(ch) || n == 45 || n == 46)
      && (Closes(ch) <==> n == 44 || n == 93 || n == 125)
      && (Digit(ch) <==> 48 <= n <= 57)
      && (IsSpace(ch) <==>
           (9 <= n <= 13 || 28 <= n <= 32 || n == 133 || n == 160 || n == 5760 || 8192 <= n <= 8202
            || n == 8232 || n == 8233 || n == 8239 || n == 8287 || n == 12288))
  {
  }

  /** A bare value behind a colon comes out in quotes unless it is one of the three words or
      a number; the space around it and what closes it stay, and the rest is repaired apart. */
  lemma {:induction false} BareQuoted(gap: string, token: string, close: string, rest: string)
    requires AllSpace(gap) && IsToken(token) && IsClose(close)
    ensures Repaired(":" + (gap + token + close + rest)) ==
      if token in ["true", "false", "null"] || IsNumber(token) then ":" + (gap + token + close + Repaired(rest))
      else ":" + (gap + "\"" + token + "\"" + close + Repaired(rest))
  {
    AfterBare(Bare(gap, token, close), rest);
    assert token in ["true", "false", "null"] <==> IsLiteral(token);
  }

  // ---- Repairing twice is repairing once ---------------------------------------------------------

  lemma {:induction false} ColonlessJoin(a: string, b: string)
    requires Colonless(a) && Colonless(b)
    ensures Colonless(a + b)
  {
  }

  lemma {:induction false} PartsColonless(b: Bare)
    requires WellFormed(b)
    ensures Colonless(b.gap) && Colonless(b.token) && Colonless(b.close)
  {
    TextColonless(b);
    assert forall i :: 0 <= i < |b.gap| ==> b.gap[i] == Text(b)[i];
    assert forall i :: 0 <= i < |b.token| ==> b.token[i] == Text(b)[|b.gap| + i];
    assert forall i :: 0 <= i < |b.close| ==> b.close[i] == Text(b)[|b.gap| + |b.token| + i];
  }

  lemma {:induction false} QuotedColonless(b: Bare)
    requires WellFormed(b)
    ensures Colonless(b.gap + "\"" + b.token + "\"" + b.close)
  {
    PartsColonless(b);
    ColonlessJoin(b.gap, "\"");
    ColonlessJoin(b.gap + "\"", b.token);
    ColonlessJoin(b.gap + "\"" + b.token, "\"");
    ColonlessJoin(b.gap + "\"" + b.token + "\"", b.close);
  }

  lemma {:induction false} FixedAgain(b: Bare, rest: string)
    requires WellFormed(b)
    ensures Repaired(":" + (Fixed(b) + rest)) == ":" + (Fixed(b) + Repaired(rest))
  {
    if Kept(b.token) {
      AfterBare(b, rest);
    } else {
      var tail := b.token + "\"" + b.close + rest;
      assert Fixed(b) + rest == b.gap + "\"" + tail;
      QuoteIsNoBare(b.gap, tail);
      AfterColon(Fixed(b) + rest);
      QuotedColonless(b);
      PlainPart(Fixed(b), rest);
    }
  }

  lemma {:induction false} IdempotentColon(t: string)
    requires BareAt(t).None? && Repaired(Repaired(t)) == Repaired(t)
    ensures Repaired(Repaired(":" + t)) == Repaired(":" + t)
  {
    NoBareAppears(t);
    AfterColon(t);
    if BareAt(Repaired(t)).None? {
      AfterColon(Repaired(t));
    }
  }

  /** On every text. */
  lemma {:induction false} RepairIdempotent(s: string)
    ensures Repaired(Repaired(s)) == Repaired(s)
    decreases |s|
  {
    if s != "" {
      var t := s[1..];
      if s[0] == ':' && BareAt(t).Some? {
        var b := BareAt(t).value;
        var rest := t[Length(b)..];
        BareFound(t);
        RepairIdempotent(rest);
        FixedAgain(b, Repaired(rest));
      } else {
        RepairIdempotent(t);
        if s[0] == ':' {
          IdempotentColon(t);
          assert s == ":" + t;
        } else {
          PlainPart([s[0]], Repaired(t));
        }
      }
    }
  }

  // ---- What a repair changes ------------------------------------------------------------------------

  /** `r` is `s` with quotes inserted: nothing removed, nothing moved, nothing else added. */
  predicate QuotesAdded(s: string, r: string)
    decreases |r|
  {
    if r == "" then s == ""
    else (s != "" && s[0] == r[0] && QuotesAdded(s[1..], r[1..])) || (r[0] == '"' && QuotesAdded(s, r[1..]))
  }

  lemma {:induction false} NothingAdded(s: string)
    ensures QuotesAdded(s, s)
    decreases |s|
  {
    if s != "" {
      NothingAdded(s[1..]);
    }
  }

  lemma {:induction false} AddedAppend(a: string, ra: string, b: string, rb: string)
    requires QuotesAdded(a, ra) && QuotesAdded(b, rb)
    ensures QuotesAdded(a + b, ra + rb)
    decreases |ra|
  {
    if ra == "" {
      assert a + b == b && ra + rb == rb;
    } else {
      assert (ra + rb)[1..] == ra[1..] + rb;
      if a != "" && a[0] == ra[0] && QuotesAdded(a[1..], ra[1..]) {
        assert (a + b)[1..] == a[1..] + b;
        AddedAppend(a[1..], ra[1..], b, rb);
      } else {
        AddedAppend(a, ra[1..], b, rb);
      }
    }
  }

  lemma {:induction false} AddedBefore(x: string, s: string, r: string)
    requires QuotesAdded(s, r)
    ensures QuotesAdded(x + s, x + r)
  {
    NothingAdded(x);
    AddedAppend(x, x, s, r);
  }

  lemma {:induction false} AddedQuote(s: string, r: string)
    requires QuotesAdded(s, r)
    ensures QuotesAdded(s, "\"" + r)
  {
    assert ("\"" + r)[1..] == r;
  }

  lemma {:induction false} FixedAdds(b: Bare)
    ensures QuotesAdded(Text(b), Fixed(b))
  {
    NothingAdded(Text(b));
    if !Kept(b.token) {
      NothingAdded(b.close);
      AddedQuote(b.close, b.close);
      AddedBefore(b.token, b.close, "\"" + b.close);
      AddedQuote(b.token + b.close, b.token + ("\"" + b.close));
      AddedBefore(b.gap, b.token + b.close, "\"" + (b.token + ("\"" + b.close)));
      Regroup(b.gap, b.token, b.close);
      Regroup4(b.gap, "\"", b.token, "\"" + b.close);
      Regroup(b.gap + "\"" + b.token, "\"", b.close);
    }
  }

  lemma {:induction false} BareAdds(t: string, b: Bare, rest: string, repaired: string)
    requires t == Text(b) + rest && QuotesAdded(rest, repaired)
    ensures QuotesAdded(":" + t, ":" + (Fixed(b) + repaired))
  {
    FixedAdds(b);
    AddedAppend(Text(b), Fixed(b), rest, repaired);
    AddedBefore(":", t, Fixed(b) + repaired);
  }

  /** A repair inserts quotes and does nothing else. */
  lemma {:induction false} OnlyQuotesInserted(s: string)
    ensures QuotesAdded(s, Repaired(s))
    decreases |s|
  {
    if s != "" {
      var t := s[1..];
      if s[0] == ':' && BareAt(t).Some? {
        var b := BareAt(t).value;
        var rest := t[Length(b)..];
        BareFound(t);
        OnlyQuotesInserted(rest);
        BareAdds(t, b, rest, Repaired(rest));
        assert s == ":" + t;
      } else {
        OnlyQuotesInserted(t);
        AddedBefore([s[0]], t, Repaired(t));
        assert s == [s[0]] + t;
      }
    }
  }

  lemma {:induction false} AddedLengthens(s: string, r: string)
    requires QuotesAdded(s, r)
    ensures |s| < |r| || s == r
    decreases |r|
  {
    if r != "" {
      if s != "" && s[0] == r[0] && QuotesAdded(s[1..], r[1..]) {
        AddedLengthens(s[1..], r[1..]);
        assert s == [s[0]] + s[1..] && r == [r[0]] + r[1..];
      } else {
        AddedLengthens(s, r[1..]);
      }
    }
  }

  /** A repair leaves a text as it is or makes it longer. */
  lemma {:induction false} SameOrLonger(s: string)
    ensures Repaired(s) == s || |Repaired(s)| > |s|
  {
    OnlyQuotesInserted(s);
    AddedLengthens(s, Repaired(s));
  }

  /** No colon is followed by a bare value other than a literal or a strict number. */
  ghost predicate NothingToQuote(s: string) {
    forall i :: 0 <= i < |s| && s[i] == ':' && BareAt(s[i + 1..]).Some? ==> Kept(BareAt(s[i + 1..]).value.token)
  }

  lemma {:induction false} NothingToQuoteSplit(p: string, rest: string)
    requires Colonless(p)
    ensures NothingToQuote(p + rest) <==> NothingToQuote(rest)
  {
    var s := p + rest;
    forall i | 0 <= i < |rest| ensures s[|p| + i] == rest[i] && s[|p| + i + 1..] == rest[i + 1..] {
    }
    if NothingToQuote(s) {
      forall i | 0 <= i < |rest| && rest[i] == ':' && BareAt(rest[i + 1..]).Some?
        ensures Kept(BareAt(rest[i + 1..]).value.token)
      {
        assert s[|p| + i] == ':' && s[|p| + i + 1..] == rest[i + 1..];
      }
    }
    if NothingToQuote(rest) {
      forall i | 0 <= i < |s| && s[i] == ':' && BareAt(s[i + 1..]).Some? ensures Kept(BareAt(s[i + 1..]).value.token) {
        assert i >= |p|;
        assert rest[i - |p|] == ':' && s[i + 1..] == rest[i - |p| + 1..];
      }
    }
  }

  /** A text is left as it is exactly when there is nothing to quote in it. */
  lemma {:induction false} Untouched(s: string)
    ensures Repaired(s) == s <==> NothingToQuote(s)
    decreases |s|
  {
    if s != "" {
      var t := s[1..];
      assert s == [s[0]] + t;
      if s[0] == ':' && BareAt(t).Some? {
        var b := BareAt(t).value;
        Untouched(t[Length(b)..]);
        UntouchedBare(t, b, t[Length(b)..]);
        NothingInBare(t, b, t[Length(b)..]);
        assert s == ":" + t;
      } else {
        Untouched(t);
        UntouchedOther(s[0], t);
      }
    }
  }

  lemma {:induction false} UntouchedOther(ch: char, t: string)
    requires ch != ':' || BareAt(t).None?
    ensures Repaired([ch] + t) == [ch] + t <==> Repaired(t) == t
    ensures NothingToQuote([ch] + t) <==> NothingToQuote(t)
  {
    FrontCancels([ch], Repaired(t), t);
    if ch == ':' {
      AfterColon(t);
      ColonWithoutBare(t);
      assert [ch] + t == ":" + t;
    } else {
      PlainPart([ch], t);
      NothingToQuoteSplit([ch], t);
    }
  }

  lemma {:induction false} ColonWithoutBare(t: string)
    requires BareAt(t).None?
    ensures NothingToQuote(":" + t) <==> NothingToQuote(t)
  {
    var s := ":" + t;
    assert s[1..] == t;
    forall i | 0 <= i < |t| ensures s[i + 1] == t[i] && s[i + 2..] == t[i + 1..] {
    }
    if NothingToQuote(s) {
      forall i | 0 <= i < |t| && t[i] == ':' && BareAt(t[i + 1..]).Some? ensures Kept(BareAt(t[i + 1..]).value.token) {
        assert s[i + 1] == ':' && s[i + 1 + 1..] == t[i + 1..];
      }
    }
    if NothingToQuote(t) {
      forall i | 0 <= i < |s| && s[i] == ':' && BareAt(s[i + 1..]).Some? ensures Kept(BareAt(s[i + 1..]).value.token) {
        assert i > 0;
        assert t[i - 1] == ':' && s[i + 1..] == t[i - 1 + 1..];
      }
    }
  }

  lemma {:induction false} UntouchedBare(t: string, b: Bare, rest: string)
    requires BareAt(t) == Some(b) && rest == t[Length(b)..]
    ensures Repaired(":" + t) == ":" + t <==> Kept(b.token) && Repaired(rest) == rest
  {
    BareFound(t);
    SameOrLonger(rest);
    RepairedBare(t, b, rest);
    SameBehindBare(b, rest, Repaired(rest));
  }

  lemma {:induction false} NothingInBare(t: string, b: Bare, rest: string)
    requires BareAt(t) == Some(b) && rest == t[Length(b)..]
    ensures NothingToQuote(":" + t) <==> Kept(b.token) && NothingToQuote(rest)
  {
    BareFound(t);
    TextColonless(b);
    NothingToQuoteSplit(Text(b), rest);
    assert (":" + t)[1..] == t;
    NothingAfterColon(":" + t);
  }

  lemma {:induction false} SameBehindBare(b: Bare, rest: string, repaired: string)
    requires |repaired| >= |rest|
    ensures ":" + (Fixed(b) + repaired) == ":" + (Text(b) + rest) <==> Kept(b.token) && repaired == rest
  {
    if Kept(b.token) {
      FrontCancels(":", Text(b) + repaired, Text(b) + rest);
      FrontCancels(Text(b), repaired, rest);
    } else {
      assert |":" + (Fixed(b) + repaired)| > |":" + (Text(b) + rest)|;
    }
  }

  lemma {:induction false} FrontCancels(x: string, y: string, z: string)
    ensures x + y == x + z <==> y == z
  {
    assert (x + y)[|x|..] == y && (x + z)[|x|..] == z;
  }

  lemma {:induction false} NothingAfterColon(s: string)
    requires s != "" && s[0] == ':' && BareAt(s[1..]).Some?
    ensures NothingToQuote(s) <==> Kept(BareAt(s[1..]).value.token) && NothingToQuote(s[1..])
  {
    var t := s[1..];
    if NothingToQuote(s) {
      assert s[0] == ':' && s[0 + 1..] == t;
      forall i | 0 <= i < |t| && t[i] == ':' && BareAt(t[i + 1..]).Some? ensures Kept(BareAt(t[i + 1..]).value.token) {
        assert s[i + 1] == ':' && s[i + 1 + 1..] == t[i + 1..];
      }
    }
    if Kept(BareAt(t).value.token) && NothingToQuote(t) {
      forall i | 0 <= i < |s| && s[i] == ':' && BareAt(s[i + 1..]).Some? ensures Kept(BareAt(s[i + 1..]).value.token) {
        assert i > 0 ==> t[i - 1] == ':' && s[i + 1..] == t[i - 1 + 1..];
      }
    }
  }

  // ---- A quote separates ------------------------------------------------------------------------------

  lemma {:induction false} NoBareAcrossQuote(t: string, rest: string)
    ensures BareAt(t + ("\"" + rest)).Some? ==> BareAt(t).Some?
  {
    var all := t + ("\"" + rest);
    if BareAt(all).Some? {
      BareFound(all);
      var b := BareAt(all).value;
      TextColonless(b);
      PrefixBefore(t, rest, Text(b));
      FrontIsBare(t, b);
    }
  }

  lemma {:induction false} PrefixBefore(t: string, rest: string, x: string)
    requires x <= t + ("\"" + rest) && forall i :: 0 <= i < |x| ==> x[i] != '"'
    ensures x <= t
  {
    var all := t + ("\"" + rest);
    assert all[|t|] == '"';
    forall i | 0 <= i < |x| ensures i != |t| && x[i] == all[i] {
    }
  }

  lemma {:induction false} BareThenQuote(t: string, b: Bare, u: string, q: string)
    requires BareAt(t) == Some(b) && u == t[Length(b)..]
    ensures BareAt(t + q) == Some(b) && (t + q)[Length(b)..] == u + q
  {
    BareFound(t);
    Regroup(Text(b), u, q);
    BareIsFound(b, u + q);
  }

  lemma {:induction false} BareSeparates(t: string, b: Bare, u: string, q: string, r: string)
    requires BareAt(t) == Some(b) && u == t[Length(b)..]
    requires Repaired(u + q) == Repaired(u) + r
    ensures Repaired(":" + (t + q)) == Repaired(":" + t) + r
  {
    BareThenQuote(t, b, u, q);
    RepairedBare(t + q, b, u + q);
    RepairedBare(t, b, u);
    Regroup(Fixed(b), Repaired(u), r);
    Regroup(":", Fixed(b) + Repaired(u), r);
  }

  lemma {:induction false} ColonSeparates(t: string, q: string, r: string)
    requires BareAt(t).None? && BareAt(t + q).None?
    requires Repaired(t + q) == Repaired(t) + r
    ensures Repaired(":" + (t + q)) == Repaired(":" + t) + r
  {
    AfterColon(t);
    AfterColon(t + q);
    Regroup(":", Repaired(t), r);
  }

  lemma {:induction false} PlainSeparates(ch: char, t: string, q: string, r: string)
    requires ch != ':'
    requires Repaired(t + q) == Repaired(t) + r
    ensures Repaired([ch] + (t + q)) == Repaired([ch] + t) + r
  {
    PlainPart([ch], t + q);
    PlainPart([ch], t);
    Regroup([ch], Repaired(t), r);
  }

  /** What stands before a quote and what stands behind it are repaired apart. */
  lemma {:induction false} QuoteSeparates(p: string, rest: string)
    ensures Repaired(p + ("\"" + rest)) == Repaired(p) + ("\"" + Repaired(rest))
    decreases |p|
  {
    var q, r := "\"" + rest, "\"" + Repaired(rest);
    if p == "" {
      QuoteLeads(p, rest);
    } else {
      var t := p[1..];
      assert p == [p[0]] + t;
      Regroup([p[0]], t, q);
      if p[0] == ':' && BareAt(t).Some? {
        var b := BareAt(t).value;
        QuoteSeparates(t[Length(b)..], rest);
        BareSeparates(t, b, t[Length(b)..], q, r);
      } else {
        QuoteSeparates(t, rest);
        OtherSeparates(p[0], t, rest, q, r);
      }
    }
  }

  lemma {:induction false} QuoteLeads(p: string, rest: string)
    requires p == ""
    ensures Repaired(p + ("\"" + rest)) == Repaired(p) + ("\"" + Repaired(rest))
  {
    assert p + ("\"" + rest) == "\"" + rest;
    PlainPart("\"", rest);
  }

  lemma {:induction false} OtherSeparates(ch: char, t: string, rest: string, q: string, r: string)
    requires ch != ':' || BareAt(t).None?
    requires q == "\"" + rest && Repaired(t + q) == Repaired(t) + r
    ensures Repaired([ch] + (t + q)) == Repaired([ch] + t) + r
  {
    if ch != ':' {
      PlainSeparates(ch, t, q, r);
    } else {
      NoBareAcrossQuote(t, rest);
      ColonSeparates(t, q, r);
    }
  }

  // ---- Numbers as tokens ---------------------------------------------------------------------------------

  predicate Numeric(ch: char) { Digit(ch) || ch == '.' || ch == '-' || ch == '+' || ch == 'e' || ch == 'E' }

  predicate NumericPart(t: string, i: nat, n: nat)
    requires n <= |t|
  {
    forall k :: i <= k < n ==> Numeric(t[k])
  }

  lemma {:induction false} DigitsAreDigits(t: string, i: nat)
    requires i <= |t|
    ensures forall k :: i <= k < DigitsEnd(t, i) ==> Digit(t[k])
    decreases |t| - i
  {
    if i < |t| && Digit(t[i]) {
      DigitsAreDigits(t, i + 1);
    }
  }

  lemma {:induction false} NumberChars(t: string)
    requires IsNumber(t)
    ensures NumericPart(t, 0, |t|) && t != "" && (t[0] == '-' || Digit(t[0]))
  {
    var i := if t[0] == '-' then 1 else 0;
    var w := WholeEnd(t, i);
    var f := FractionEnd(t, w);
    DigitsAreDigits(t, i);
    if w < |t| {
      DigitsAreDigits(t, w + 1);
    }
    if f < |t| {
      DigitsAreDigits(t, f + 1);
    }
    if f + 1 < |t| {
      DigitsAreDigits(t, f + 2);
    }
  }

  predicate AllDigits(x: string) { x != "" && forall i :: 0 <= i < |x| ==> Digit(x[i]) }

  /** The integer part of a number: digits without a leading zero. */
  predicate IsWhole(x: string) { AllDigits(x) && (x[0] == '0' ==> |x| == 1) }

  predicate IsFraction(x: string) { x == "" || (x[0] == '.' && AllDigits(x[1..])) }

  predicate IsExponent(x: string) {
    || x == ""
    || ((x[0] == 'e' || x[0] == 'E') && AllDigits(x[1..]))
    || (|x| > 1 && (x[0] == 'e' || x[0] == 'E') && (x[1] == '+' || x[1] == '-') && AllDigits(x[2..]))
  }

  lemma {:induction false} DigitsRun(t: string, i: nat, j: nat)
    requires i <= j <= |t| && (forall k :: i <= k < j ==> Digit(t[k])) && (j == |t| || !Digit(t[j]))
    ensures DigitsEnd(t, i) == j
    decreases j - i
  {
    if i < j {
      DigitsRun(t, i + 1, j);
    }
  }

  lemma {:induction false} FractionRun(t: string, w: nat, f: nat)
    requires w <= f <= |t| && IsFraction(t[w..f]) && (f == |t| || (!Digit(t[f]) && t[f] != '.'))
    ensures FractionEnd(t, w) == f
  {
    if w < f {
      assert t[w] == t[w..f][0];
      assert forall k :: w + 1 <= k < f ==> t[k] == t[w..f][1..][k - w - 1];
      DigitsRun(t, w + 1, f);
    }
  }

  lemma {:induction false} ExponentRun(t: string, f: nat)
    requires f <= |t| && IsExponent(t[f..])
    ensures ExponentEnd(t, f) == |t|
  {
    var x := t[f..];
    if x != "" {
      var d := if AllDigits(x[1..]) then 1 else 2;
      assert forall k :: f + d <= k < |t| ==> t[k] == x[d..][k - f - d];
      assert t[f] == x[0] && t[f + 1] == x[1];
      assert AllDigits(x[1..]) ==> x[1] == x[1..][0];
      DigitsRun(t, f + d, |t|);
    }
  }

  /** Every text of the grammar is a number: a sign, an integer part, a fraction, an exponent. */
  lemma {:induction false} GrammarIsNumber(minus: bool, whole: string, fraction: string, exponent: string)
    requires IsWhole(whole) && IsFraction(fraction) && IsExponent(exponent)
    ensures IsNumber((if minus then "-" else "") + (whole + (fraction + exponent)))
  {
    var sign := if minus then "-" else "";
    var tail := fraction + exponent;
    var t := sign + (whole + tail);
    var i, w, f := |sign|, |sign| + |whole|, |sign| + |whole| + |fraction|;
    assert t[w..] == tail && t[f..] == exponent && t[w..f] == fraction;
    assert forall k :: i <= k < w ==> t[k] == whole[k - i];
    assert w < |t| ==> t[w] == tail[0];
    assert f < |t| ==> t[f] == exponent[0];
    DigitsRun(t, i, w);
    FractionRun(t, w, f);
    ExponentRun(t, f);
  }

  lemma {:induction false} WholeDigits(t: string, i: nat)
    requires i <= |t| && i < WholeEnd(t, i)
    ensures IsWhole(t[i..WholeEnd(t, i)])
  {
    DigitsAreDigits(t, i);
    var x := t[i..WholeEnd(t, i)];
    forall k | 0 <= k < |x| ensures Digit(x[k]) {
      assert x[k] == t[i + k];
    }
  }

  lemma {:induction false} FractionDigits(t: string, w: nat)
    requires w <= |t|
    ensures IsFraction(t[w..FractionEnd(t, w)])
  {
    var f := FractionEnd(t, w);
    if f > w {
      DigitsAreDigits(t, w + 1);
      var x := t[w..f];
      assert x[0] == t[w];
      forall k | 0 <= k < |x[1..]| ensures Digit(x[1..][k]) {
        assert x[1..][k] == t[w + 1 + k];
      }
    }
  }

  /** And every number is of the grammar. */
  lemma {:induction false} NumberIsGrammar(t: string)
    requires IsNumber(t)
    ensures var i := if t[0] == '-' then 1 else 0; var w := WholeEnd(t, i); var f := FractionEnd(t, w);
      IsWhole(t[i..w]) && IsFraction(t[w..f]) && IsExponent(t[f..])
  {
    var i := if t[0] == '-' then 1 else 0;
    var w := WholeEnd(t, i);
    var f := FractionEnd(t, w);
    WholeDigits(t, i);
    FractionDigits(t, w);
    if f < |t| {
      ExponentDigits(t, f);
    }
  }

  lemma {:induction false} ExponentDigits(t: string, f: nat)
    requires f < |t| && ExponentEnd(t, f) == |t|
    ensures IsExponent(t[f..])
  {
    var j := if f + 1 < |t| && (t[f + 1] == '+' || t[f + 1] == '-') then f + 2 else f + 1;
    DigitsAreDigits(t, j);
    var x := t[f..];
    assert x[0] == t[f] && x[j - f..] == t[j..];
    var y := x[j - f..];
    forall k | 0 <= k < |y| ensures Digit(y[k]) {
      assert y[k] == t[j + k];
    }
    if j == f + 2 {
      assert x[1] == t[f + 1];
    }
  }

  /** Where the token run in a text of numeric characters stops: at a plus sign or at its end. */
  lemma {:induction false} NumberRun(t: string, more: string)
    requires NumericPart(t, 0, |t|) && (more == "" || !Continues(more[0]))
    ensures var n := TokenLen(t + more); n <= |t| && (n < |t| ==> t[n] == '+') && (n == |t| ==> AllToken(t))
    decreases |t|
  {
    if t == "" {
      assert t + more == more;
    } else {
      assert (t + more)[1..] == t[1..] + more;
      NumberRun(t[1..], more);
    }
  }

  lemma {:induction false} TokenStays(gap: string, text: string, close: string, rest: string)
    requires AllSpace(gap) && Kept(text) && IsToken(text) && IsClose(close)
    ensures Repaired(":" + (gap + (text + (close + rest)))) == ":" + (gap + (text + (close + Repaired(rest))))
  {
    AfterBare(Bare(gap, text, close), rest);
    Regroup4(gap, text, close, rest);
    Regroup4(gap, text, close, Repaired(rest));
  }

  lemma {:induction false} NumberStays(gap: string, text: string, close: string, rest: string)
    requires AllSpace(gap) && IsNumber(text) && !IsToken(text) && IsClose(close)
    ensures Repaired(":" + (gap + (text + (close + rest)))) == ":" + (gap + (text + (close + Repaired(rest))))
  {
    NumberChars(text);
    NotAToken(gap, text, close, rest);
    AfterColon(gap + (text + (close + rest)));
    CloseColonless(close);
    PlainPart(gap, text + (close + rest));
    PlainPart(text, close + rest);
    PlainPart(close, rest);
  }

  /** A number or literal in value position is left alone. */
  lemma {:induction false} KeptStays(gap: string, text: string, close: string, rest: string)
    requires AllSpace(gap) && Kept(text) && IsClose(close)
    ensures Repaired(":" + (gap + (text + (close + rest)))) == ":" + (gap + (text + (close + Repaired(rest))))
  {
    if IsToken(text) {
      TokenStays(gap, text, close, rest);
    } else {
      NumberStays(gap, text, close, rest);
    }
  }

  lemma {:induction false} CloseColonless(close: string)
    requires IsClose(close)
    ensures Colonless(close)
  {
    TextColonless(Bare("", "a", close));
    assert Text(Bare("", "a", close))[1..] == close;
  }

  lemma {:induction false} NotAToken(gap: string, text: string, close: string, rest: string)
    requires AllSpace(gap) && IsNumber(text) && !IsToken(text) && IsClose(close)
    ensures BareAt(gap + (text + (close + rest))).None?
  {
    var more := close + rest;
    var tail := text + more;
    NumberChars(text);
    assert tail[0] == text[0] && !IsSpace(text[0]);
    SpaceRun(gap, tail);
    assert (gap + tail)[|gap|..] == tail;
    assert !Continues(more[0]) by {
      assert |close| > 1 ==> close[0] == close[..|close| - 1][0];
    }
    NumberRun(text, more);
    var n := TokenLen(tail);
    if Starts(text[0]) {
      assert n < |text| && tail[n..][0] == '+';
      assert CloseAt(tail[n..]).None?;
    }
  }

  // ---- Flat objects ---------------------------------------------------------------------------------------

  /** A string, which the device may leave bare, or a number or literal. */
  datatype Value = Str(text: string, bare: bool) | Token(text: string)

  datatype Field = Field(lead: string, key: string, gap: string, value: Value, pad: string)

  predicate Sound(f: Field) {
    && AllSpace(f.lead) && AllSpace(f.gap) && AllSpace(f.pad)
    && match f.value
       case Str(text, bare) => bare ==> IsToken(text) && !Kept(text)
       case Token(text) => Kept(text)
  }

  predicate AllSound(fs: seq<Field>) { forall i :: 0 <= i < |fs| ==> Sound(fs[i]) }

  function ValueText(v: Value, mixed: bool): string {
    match v
    case Str(text, bare) => if bare && mixed then text else "\"" + (text + "\"")
    case Token(text) => text
  }

  /** The fields separated by commas, and the closing bracket. */
  function Body(fs: seq<Field>, mixed: bool): string
    requires fs != []
    decreases |fs|, 1
  {
    var f := fs[0];
    f.lead + ("\"" + (f.key + ("\"" + (":" + (f.gap + (ValueText(f.value, mixed) + (f.pad + Rest(fs, mixed))))))))
  }

  function Rest(fs: seq<Field>, mixed: bool): string
    requires fs != []
    decreases |fs|, 0
  {
    if |fs| == 1 then "}" else "," + Body(fs[1..], mixed)
  }

  function ObjectText(fs: seq<Field>, mixed: bool): string {
    if fs == [] then "{}" else "{" + Body(fs, mixed)
  }

  function RepairedField(f: Field): Field {
    f.(key := Repaired(f.key), value := if f.value.Str? && !f.value.bare then f.value.(text := Repaired(f.value.text)) else f.value)
  }

  function RepairedFields(fs: seq<Field>): (r: seq<Field>)
    ensures |r| == |fs| && forall i :: 0 <= i < |r| ==> r[i] == RepairedField(fs[i])
  {
    seq(|fs|, i requires 0 <= i < |fs| => RepairedField(fs[i]))
  }

  // ---- Repairing an object --------------------------------------------------------------------------------

  /** One value, from its colon up to what closes it. */
  lemma {:induction false} ValueRepaired(gap: string, v: Value, close: string, rest: string)
    requires Sound(Field("", "", gap, v, "")) && IsClose(close)
    ensures Repaired(":" + (gap + (ValueText(v, true) + (close + rest)))) ==
      ":" + (gap + (ValueText(RepairedField(Field("", "", gap, v, "")).value, false) + (close + Repaired(rest))))
  {
    match v
    case Token(text) => KeptStays(gap, text, close, rest);
    case Str(text, bare) =>
      if bare {
        BareValue(gap, text, close, rest);
      } else {
        QuotedValue(gap, text, close, rest);
      }
  }

  lemma {:induction false} QuotedRegroup(q: string, text: string, rest: string)
    ensures (q + (text + q)) + rest == q + (text + (q + rest))
  {
    Regroup(q, text + q, rest);
    Regroup(text, q, rest);
  }

  lemma {:induction false} BareValue(gap: string, text: string, close: string, rest: string)
    requires AllSpace(gap) && IsToken(text) && !Kept(text) && IsClose(close)
    ensures Repaired(":" + (gap + (text + (close + rest)))) ==
      ":" + (gap + (("\"" + (text + "\"")) + (close + Repaired(rest))))
  {
    var r := Repaired(rest);
    AfterBare(Bare(gap, text, close), rest);
    Regroup4(gap, text, close, rest);
    Regroup4(gap + "\"" + text, "\"", close, r);
    Regroup4(gap, "\"", text, "\"" + (close + r));
    Regroup(gap + "\"" + text, "\"", close + r);
    QuotedRegroup("\"", text, close + r);
    Regroup(gap + "\"" + text + "\"", close, r);
  }

  lemma {:induction false} QuotedValue(gap: string, text: string, close: string, rest: string)
    requires AllSpace(gap) && IsClose(close)
    ensures Repaired(":" + (gap + (("\"" + (text + "\"")) + (close + rest)))) ==
      ":" + (gap + (("\"" + (Repaired(text) + "\"")) + (close + Repaired(rest))))
  {
    var tail, after := close + rest, close + Repaired(rest);
    QuotedRegroup("\"", text, tail);
    Regroup(":", gap, "\"" + (text + ("\"" + tail)));
    QuoteSeparates(":" + gap, text + ("\"" + tail));
    QuoteSeparates(text, tail);
    CloseColonless(close);
    PlainPart(close, rest);
    GapStays(gap);
    QuotedRegroup("\"", Repaired(text), after);
    Regroup(":", gap, "\"" + (Repaired(text) + ("\"" + after)));
  }

  lemma {:induction false} GapStays(gap: string)
    requires AllSpace(gap)
    ensures Repaired(":" + gap) == ":" + gap
  {
    assert gap + "" == gap;
    SpaceRun(gap, "");
    AfterColon(gap);
    PlainPart(gap, "");
  }

  lemma {:induction false} KeyRepaired(lead: string, key: string, rest: string)
    requires AllSpace(lead)
    ensures Repaired(lead + ("\"" + (key + ("\"" + rest)))) == lead + ("\"" + (Repaired(key) + ("\"" + Repaired(rest))))
  {
    PlainPart(lead, "\"" + (key + ("\"" + rest)));
    PlainPart("\"", key + ("\"" + rest));
    QuoteSeparates(key, rest);
  }

  lemma {:induction false} BodyRepaired(fs: seq<Field>)
    requires fs != [] && AllSound(fs)
    ensures Repaired(Body(fs, true)) == Body(RepairedFields(fs), false)
    decreases |fs|
  {
    var f, g := fs[0], RepairedFields(fs)[0];
    var mark := if |fs| == 1 then "}" else ",";
    var rest := if |fs| == 1 then "" else Body(fs[1..], true);
    var done := if |fs| == 1 then "" else Body(RepairedFields(fs[1..]), false);
    if |fs| > 1 {
      BodyRepaired(fs[1..]);
      assert RepairedFields(fs)[1..] == RepairedFields(fs[1..]);
    }
    assert Rest(fs, true) == mark + rest && Rest(RepairedFields(fs), false) == mark + done;
    FieldRepaired(f, mark, rest);
  }

  lemma {:induction false} FieldRepaired(f: Field, mark: string, rest: string)
    requires Sound(f) && (mark == "," || mark == "}")
    ensures var g := RepairedField(f);
      Repaired(f.lead + ("\"" + (f.key + ("\"" + (":" + (f.gap + (ValueText(f.value, true) + (f.pad + (mark + rest)))))))))
        == f.lead + ("\"" + (g.key + ("\"" + (":" + (f.gap + (ValueText(g.value, false) + (f.pad + (mark + Repaired(rest)))))))))
  {
    var close := f.pad + mark;
    Regroup(f.pad, mark, rest);
    Regroup(f.pad, mark, Repaired(rest));
    assert close[..|close| - 1] == f.pad;
    KeyRepaired(f.lead, f.key, ":" + (f.gap + (ValueText(f.value, true) + (close + rest))));
    ValueRepaired(f.gap, f.value, close, rest);
  }

  /** A flat object whose strings the device left bare in any places comes out strictly
      printed, except for what the repair makes of its keys and quoted strings. */
  lemma {:induction false} ObjectRepaired(fs: seq<Field>)
    requires AllSound(fs)
    ensures Repaired(ObjectText(fs, true)) == ObjectText(RepairedFields(fs), false)
  {
    if fs == [] {
      PlainPart("{}", "");
      assert "{}" + "" == "{}";
    } else {
      BodyRepaired(fs);
      PlainPart("{", Body(fs, true));
    }
  }

  /** There is nothing to quote inside the keys and the quoted strings. */
  ghost predicate Calm(fs: seq<Field>) {
    forall i :: 0 <= i < |fs| ==>
      NothingToQuote(fs[i].key) && (fs[i].value.Str? && !fs[i].value.bare ==> NothingToQuote(fs[i].value.text))
  }

  lemma {:induction false} CalmMeansSame(fs: seq<Field>)
    ensures Calm(fs) <==> RepairedFields(fs) == fs
  {
    forall i | 0 <= i < |fs|
      ensures RepairedFields(fs)[i] == fs[i] <==>
        NothingToQuote(fs[i].key) && (fs[i].value.Str? && !fs[i].value.bare ==> NothingToQuote(fs[i].value.text))
    {
      Untouched(fs[i].key);
      if fs[i].value.Str? {
        Untouched(fs[i].value.text);
      }
    }
    if Calm(fs) {
      assert RepairedFields(fs) == fs;
    }
  }

  lemma {:induction false} FieldLonger(f: Field)
    ensures var g := RepairedField(f);
      g == f || |g.key| + |ValueText(g.value, false)| > |f.key| + |ValueText(f.value, false)|
  {
    SameOrLonger(f.key);
    if f.value.Str? {
      SameOrLonger(f.value.text);
    }
  }

  lemma {:induction false} HeadAndTail(fs: seq<Field>, gs: seq<Field>)
    requires |fs| == |gs| > 0
    ensures fs == gs <==> fs[0] == gs[0] && fs[1..] == gs[1..]
  {
    assert fs == [fs[0]] + fs[1..] && gs == [gs[0]] + gs[1..];
  }

  /** Printing the repaired fields takes more room unless the repair changed none. */
  lemma {:induction false} RepairedBodyLonger(fs: seq<Field>, gs: seq<Field>)
    requires fs != [] && gs == RepairedFields(fs)
    ensures gs == fs || |Body(gs, false)| > |Body(fs, false)|
    decreases |fs|
  {
    FieldLonger(fs[0]);
    BodyLength(fs);
    BodyLength(gs);
    HeadAndTail(fs, gs);
    if |fs| > 1 {
      assert gs[1..] == RepairedFields(fs[1..]);
      RepairedBodyLonger(fs[1..], gs[1..]);
    }
  }

  lemma {:induction false} BodyLength(fs: seq<Field>)
    requires fs != []
    ensures |Body(fs, false)| == |fs[0].lead| + |fs[0].key| + |fs[0].gap| + |ValueText(fs[0].value, false)| + |fs[0].pad| + 4
      + if |fs| == 1 then 0 else |Body(fs[1..], false)|
  {
  }

  /** The object comes out exactly as it should have been printed if and only if there is
      nothing to quote inside its keys and quoted strings. */
  lemma {:induction false} ObjectRestored(fs: seq<Field>)
    requires AllSound(fs)
    ensures Repaired(ObjectText(fs, true)) == ObjectText(fs, false) <==> Calm(fs)
  {
    ObjectRepaired(fs);
    CalmMeansSame(fs);
    if fs != [] && RepairedFields(fs) != fs {
      RepairedBodyLonger(fs, RepairedFields(fs));
    }
  }

  /** In particular when keys and strings hold no colons. */
  lemma {:induction false} ColonlessRestored(fs: seq<Field>)
    requires AllSound(fs)
    requires forall i :: 0 <= i < |fs| ==> Colonless(fs[i].key) && (fs[i].value.Str? ==> Colonless(fs[i].value.text))
    ensures Repaired(ObjectText(fs, true)) == ObjectText(fs, false)
  {
    ObjectRestored(fs);
  }

  /** Why the strings matter: inside one, a colon, a word and a comma look like a value
      and are changed. */
  lemma {:induction false} WordInString(before: string, word: string, rest: string)
    requires Colonless(before) && IsToken(word) && !Kept(word)
    ensures Repaired(before + (":" + (word + ("," + rest)))) ==
      before + (":" + (("\"" + (word + "\"")) + ("," + Repaired(rest))))
  {
    PlainPart(before, ":" + (word + ("," + rest)));
    BareValue("", word, ",", rest);
    assert "" + (word + ("," + rest)) == word + ("," + rest);
    EmptyGap(("\"" + (word + "\"")) + ("," + Repaired(rest)));
  }

  lemma {:induction false} EmptyGap(x: string)
    ensures "" + x == x
  {
  }

  // ---- Decoding -------------------------------------------------------------------------------------------

  datatype Json<D> = Dict(value: D) | Other

  /** A field that is already a dictionary, a text, or anything else. */
  datatype Content<D> = Decoded(dict: D) | AsText(text: string) | Foreign

  /** Strict parse first; the repair only when that fails, and only if it then parses. */
  function AsDict<D>(loads: string -> Option<Json<D>>, empty: D, content: Content<D>): D {
    match content
    case Decoded(dict) => dict
    case Foreign => empty
    case AsText(text) =>
      var strict := loads(text);
      var parsed := if strict.Some? then strict else loads(Repaired(text));
      if parsed.Some? && parsed.value.Dict? then parsed.value.value else empty
  }

  lemma {:induction false} DecodesRepaired<D>(loads: string -> Option<Json<D>>, empty: D, text: string, strict: string, d: D)
    requires loads(text).None? && Repaired(text) == strict && loads(strict) == Some(Dict(d))
    ensures AsDict(loads, empty, AsText(text)) == d == AsDict(loads, empty, AsText(strict))
  {
  }

  /** An object printed with bare strings decodes to what its strict print decodes to. */
  lemma {:induction false} DecodesBare<D>(loads: string -> Option<Json<D>>, empty: D, fs: seq<Field>, d: D)
    requires AllSound(fs) && loads(ObjectText(fs, true)).None? && loads(ObjectText(fs, false)) == Some(Dict(d))
    requires Calm(fs)
    ensures AsDict(loads, empty, AsText(ObjectText(fs, true))) == d == AsDict(loads, empty, AsText(ObjectText(fs, false)))
  {
    ObjectRestored(fs);
    DecodesRepaired(loads, empty, ObjectText(fs, true), ObjectText(fs, false), d);
  }

  /** Of a text that parses, nothing but its own parse decides: no other text is consulted. */
  lemma {:induction false} ParsedIsUnaltered<D>(loads: string -> Option<Json<D>>, others: string -> Option<Json<D>>, empty: D, text: string)
    requires loads(text).Some? && others(text) == loads(text)
    ensures AsDict(loads, empty, AsText(text)) == AsDict(others, empty, AsText(text))
    ensures loads(text).value.Dict? ==> AsDict(loads, empty, AsText(text)) == loads(text).value.value
  {
  }
}
