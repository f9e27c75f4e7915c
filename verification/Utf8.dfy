/** utf8_check_is_valid of skm.cpp and the strings it accepts. */
module Utf8 {
  // ----- the accepted strings -----

  predicate Tail(b: bv8)
  {
    0x80 <= b <= 0xBF
  }

  /** How many bytes must follow a lead byte; none for a byte that cannot lead. */
  function Follow(c: bv8): (n: nat)
    ensures n <= 3
  {
    if 0xC0 <= c <= 0xDF then 1 else if 0xE0 <= c <= 0xEF then 2 else if 0xF0 <= c <= 0xF7 then 3 else 0
  }

  predicate Leads(c: bv8)
  {
    c <= 0x7F || Follow(c) > 0
  }

  predicate Surrogate(g: seq<bv8>)
  {
    |g| > 1 && g[0] == 0xED && 0xA0 <= g[1] <= 0xBF
  }

  predicate IsGroup(g: seq<bv8>)
  {
    g != [] && Leads(g[0]) && |g| == 1 + Follow(g[0]) && (forall k | 0 < k < |g| :: Tail(g[k])) && !Surrogate(g)
  }

  predicate Groups(gs: seq<seq<bv8>>)
  {
    forall k | 0 <= k < |gs| :: IsGroup(gs[k])
  }

  function Concat(gs: seq<seq<bv8>>): seq<bv8>
  {
    if gs == [] then [] else gs[0] + Concat(gs[1..])
  }

  ghost predicate Accepted(s: seq<bv8>)
  {
    exists gs :: Groups(gs) && Concat(gs) == s
  }

  lemma NothingIsAccepted()
    ensures Accepted([])
  {
    assert Groups([]) && Concat([]) == [];
  }

  lemma Prepend(g: seq<bv8>, s: seq<bv8>)
    requires IsGroup(g) && Accepted(s)
    ensures Accepted(g + s)
  {
    hide IsGroup;
    var gs :| Groups(gs) && Concat(gs) == s;
    assert Groups([g] + gs);
    assert ([g] + gs)[1..] == gs;
  }

  lemma Leading(s: seq<bv8>)
    requires s != [] && Accepted(s)
    ensures Leads(s[0]) && |s| > Follow(s[0])
    ensures IsGroup(s[..1 + Follow(s[0])]) && Accepted(s[1 + Follow(s[0])..])
  {
    var gs :| Groups(gs) && Concat(gs) == s;
    var g, rest := gs[0], Concat(gs[1..]);
    assert IsGroup(g) && s == g + rest;
    assert s[0] == g[0] && s[..|g|] == g && s[|g|..] == rest;
    assert Groups(gs[1..]);
  }

  /** A lead byte fixes where its group ends, so the groups can be read from the left. */
  lemma GroupFirst(s: seq<bv8>)
    requires s != []
    ensures Accepted(s) <==>
      |s| > Follow(s[0]) && IsGroup(s[..1 + Follow(s[0])]) && Accepted(s[1 + Follow(s[0])..])
  {
    hide IsGroup;
    var n := 1 + Follow(s[0]);
    if Accepted(s) {
      Leading(s);
    }
    if |s| >= n && IsGroup(s[..n]) && Accepted(s[n..]) {
      Prepend(s[..n], s[n..]);
      assert s[..n] + s[n..] == s;
    }
  }

  /** After an accepted prefix, a string is accepted exactly when what follows is. */
  lemma {:induction false} AfterAccepted(s: seq<bv8>, t: seq<bv8>)
    requires Accepted(s)
    ensures Accepted(s + t) <==> Accepted(t)
    decreases |s|
  {
    hide IsGroup, Accepted;
    if s == [] {
      assert s + t == t;
    } else {
      var n := 1 + Follow(s[0]);
      GroupFirst(s);
      GroupFirst(s + t);
      assert (s + t)[..n] == s[..n] && (s + t)[n..] == s[n..] + t;
      AfterAccepted(s[n..], t);
    }
  }

  // ----- the check -----

  lemma LeadBits(c: bv8)
    ensures (c & 0xE0 == 0xC0) == (0xC0 <= c <= 0xDF) && (c & 0xF0 == 0xE0) == (0xE0 <= c <= 0xEF)
    ensures (c & 0xF8 == 0xF0) == (0xF0 <= c <= 0xF7) && (c & 0xC0 == 0x80) == Tail(c)
    ensures Tail(c) ==> (c & 0xA0 == 0xA0) == (0xA0 <= c)
  {
  }

  lemma NoSuchGroup(s: seq<bv8>, k: nat)
    requires s != [] && 0 < k <= Follow(s[0])
    requires k < |s| ==> !Tail(s[k])
    ensures !Accepted(s)
  {
    GroupFirst(s);
  }

  lemma SurrogateFirst(s: seq<bv8>)
    requires |s| > 1 && s[0] == 0xED && s[1] & 0xA0 == 0xA0
    ensures !Accepted(s)
  {
    LeadBits(s[1]);
    GroupFirst(s);
  }

  /** What the branches of the check find for the lead byte at i. */
  method LeadLength(text: array<bv8>, i: nat) returns (ok: bool, n: nat)
    requires i < text.Length
    ensures ok ==> Leads(text[i]) && n == Follow(text[i]) && !Surrogate(text[i..])
    ensures !ok ==> !Accepted(text[i..])
  {
    hide Accepted;
    var ix, c := text.Length, text[i];
    GroupFirst(text[i..]);
    LeadBits(c);
    ok, n := true, 0;
    if 0x00 <= c && c <= 0x7F {
      n := 0;
    } else if c & 0xE0 == 0xC0 {
      n := 1;
    } else if c == 0xED && i < ix - 1 && text[i + 1] & 0xA0 == 0xA0 {
      SurrogateFirst(text[i..]);
      ok := false;
    } else if c & 0xF0 == 0xE0 {
      n := 2;
      if i < ix - 1 {
        LeadBits(text[i + 1]);
        assert !Surrogate(text[i..]);
      }
    } else if c & 0xF8 == 0xF0 {
      n := 3;
    } else {
      ok := false;
    }
  }

  method CheckIsValid(text: array<bv8>) returns (valid: bool)
    ensures valid <==> Accepted(text[..])
  {
    hide Accepted, IsGroup;
    var i, ix := 0, text.Length;
    assert text[0..] == text[..];
    while i < ix
      invariant 0 <= i <= ix
      invariant Accepted(text[..]) <==> Accepted(text[i..])
    {
      ghost var start := i;
      var ok, n := LeadLength(text, i);
      if !ok {
        return false;
      }
      var j := 0;
      while j < n && i < ix
        invariant 0 <= j <= n && start + j == i < ix
        invariant forall k | start < k <= i :: Tail(text[k])
      {
        i := i + 1;
        if i < ix {
          LeadBits(text[i]);
        }
        if i == ix || text[i] & 0xC0 != 0x80 {
          NoSuchGroup(text[start..], i - start);
          return false;
        }
        j := j + 1;
      }
      GroupRead(text[start..], n);
      assert text[start..][1 + n..] == text[i + 1..];
      i := i + 1;
    }
    NothingIsAccepted();
    assert text[i..] == [];
    return true;
  }

  lemma GroupRead(s: seq<bv8>, n: nat)
    requires n < |s| && Leads(s[0]) && n == Follow(s[0]) && !Surrogate(s)
    requires forall k | 0 < k <= n :: Tail(s[k])
    ensures Accepted(s) <==> Accepted(s[1 + n..])
  {
    hide Accepted;
    GroupFirst(s);
    assert IsGroup(s[..1 + n]);
  }

  // ----- the accepted strings in literal ranges -----

  /** A nonempty text is accepted exactly when it starts with one of the four kinds of groups, overlong
      and too large ones among them, and goes on with an accepted text. */
  lemma AcceptedInRanges(s: seq<bv8>)
    requires s != []
    ensures Accepted(s) <==>
      || (s[0] <= 0x7F && Accepted(s[1..]))
      || (|s| >= 2 && 0xC0 <= s[0] <= 0xDF && 0x80 <= s[1] <= 0xBF && Accepted(s[2..]))
      || (|s| >= 3 && 0xE0 <= s[0] <= 0xEF && 0x80 <= s[1] <= 0xBF && 0x80 <= s[2] <= 0xBF
          && !(s[0] == 0xED && 0xA0 <= s[1]) && Accepted(s[3..]))
      || (|s| >= 4 && 0xF0 <= s[0] <= 0xF7 && 0x80 <= s[1] <= 0xBF && 0x80 <= s[2] <= 0xBF && 0x80 <= s[3] <= 0xBF
          && Accepted(s[4..]))
  {
    hide Accepted;
    GroupFirst(s);
  }

  /** C0 80, the two bytes of U+0000 in modified UTF-8, and F7 BF BF BF, far above 10FFFF, are accepted. */
  lemma LooseGroupsAccepted()
    ensures Accepted([0xC0, 0x80]) && Accepted([0xE0, 0x80, 0x80]) && Accepted([0xF0, 0x80, 0x80, 0x80])
    ensures Accepted([0xF7, 0xBF, 0xBF, 0xBF]) && !Accepted([0xED, 0xA0, 0x80]) && !Accepted([0xF8])
  {
    NothingIsAccepted();
    OneGroup([0xC0, 0x80]);
    OneGroup([0xE0, 0x80, 0x80]);
    OneGroup([0xF0, 0x80, 0x80, 0x80]);
    OneGroup([0xF7, 0xBF, 0xBF, 0xBF]);
    AcceptedInRanges([0xED, 0xA0, 0x80]);
    AcceptedInRanges([0xF8]);
  }

  lemma OneGroup(g: seq<bv8>)
    requires IsGroup(g)
    ensures Accepted(g)
  {
    NothingIsAccepted();
    Prepend(g, []);
    assert g + [] == g;
  }

  // ----- beside RFC 3629 -----

  /** UTF8-char of section 4 of RFC 3629. */
  predicate Utf8Char(g: seq<bv8>)
  {
    match |g|
    case 1 => g[0] <= 0x7F
    case 2 => 0xC2 <= g[0] <= 0xDF && Tail(g[1])
    case 3 =>
      Tail(g[1]) && Tail(g[2])
      && ((g[0] == 0xE0 && 0xA0 <= g[1]) || 0xE1 <= g[0] <= 0xEC || (g[0] == 0xED && g[1] <= 0x9F) || 0xEE <= g[0] <= 0xEF)
    case 4 =>
      Tail(g[1]) && Tail(g[2]) && Tail(g[3])
      && ((g[0] == 0xF0 && 0x90 <= g[1]) || 0xF1 <= g[0] <= 0xF3 || (g[0] == 0xF4 && g[1] <= 0x8F))
    case _ => false
  }

  predicate Utf8Chars(gs: seq<seq<bv8>>)
  {
    forall k | 0 <= k < |gs| :: Utf8Char(gs[k])
  }

  ghost predicate WellFormed(s: seq<bv8>)
  {
    exists gs :: Utf8Chars(gs) && Concat(gs) == s
  }

  function Low(b: bv8): nat
  {
    (b & 0x3F) as nat
  }

  /** The code point that a group spells (section 3 of RFC 3629). */
  function CodePoint(g: seq<bv8>): nat
    requires IsGroup(g)
  {
    match |g|
    case 1 => g[0] as nat
    case 2 => (g[0] & 0x1F) as nat * 0x40 + Low(g[1])
    case 3 => (g[0] & 0x0F) as nat * 0x1000 + Low(g[1]) * 0x40 + Low(g[2])
    case 4 => (g[0] & 0x07) as nat * 0x40000 + Low(g[1]) * 0x1000 + Low(g[2]) * 0x40 + Low(g[3])
  }

  /** The least code point that needs n bytes. */
  function Least(n: nat): nat
  {
    match n case 2 => 0x80 case 3 => 0x800 case 4 => 0x10000 case _ => 0
  }

  /** The only ill-formed groups let through spell a code point too long or past 10FFFF. */
  lemma WhatIsLetThrough(g: seq<bv8>)
    ensures Utf8Char(g) <==> IsGroup(g) && Least(|g|) <= CodePoint(g) <= 0x10FFFF
  {
  }

  lemma WellFormedIsAccepted(s: seq<bv8>)
    requires WellFormed(s)
    ensures Accepted(s)
  {
    hide Utf8Char, IsGroup;
    var gs :| Utf8Chars(gs) && Concat(gs) == s;
    forall k | 0 <= k < |gs|
      ensures IsGroup(gs[k])
    {
      WhatIsLetThrough(gs[k]);
    }
  }
}
