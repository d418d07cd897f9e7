/** AsValidTopic of aerozen/topic_utils.cpp: what it keeps of a string, and when it loses the whole of it. */
module Sanitizing {
  import opened Names

  /** What the sanitising scan keeps: spaces become '_', the symbols and pairs that no topic may
      hold are dropped, both slashes of a pair included. */
  function Scrubbed(s: string): string {
    if s == "" then ""
    else if s[0] == ' ' then "_" + Scrubbed(s[1..])
    else if s[0] == '@' || s[0] == '~' then Scrubbed(s[1..])
    else if PairAt(s, 0, ':', '=') || PairAt(s, 0, '/', '/') then Scrubbed(s[2..])
    else [s[0]] + Scrubbed(s[1..])
  }

  function Sanitized(s: string): string {
    if IsValidTopic(Scrubbed(s)) then Scrubbed(s) else ""
  }

  lemma {:induction false} ScrubbedClean(s: string)
    requires Clean(s)
    ensures Scrubbed(s) == s
  {
    if s != "" {
      var rest := s[1..];
      assert !PairAt(s, 0, ':', '=') && !PairAt(s, 0, '/', '/');
      if HasPair(rest, '/', '/') {
        var i :| 0 <= i < |rest| && PairAt(rest, i, '/', '/');
        assert PairAt(s, i + 1, '/', '/');
      }
      if HasPair(rest, ':', '=') {
        var i :| 0 <= i < |rest| && PairAt(rest, i, ':', '=');
        assert PairAt(s, i + 1, ':', '=');
      }
      assert s[0] in s;
      ScrubbedClean(rest);
    }
  }

  /** The result is empty or valid; the strings left alone are exactly the valid topics and ""; and
      sanitising twice is sanitising once. */
  lemma SanitizedIsValid(s: string)
    ensures Sanitized(s) == "" || IsValidTopic(Sanitized(s))
    ensures Sanitized(s) == s <==> s == "" || IsValidTopic(s)
    ensures Sanitized(Sanitized(s)) == Sanitized(s)
  {
    if IsValidTopic(s) { ScrubbedClean(s); }
    if IsValidTopic(Scrubbed(s)) { ScrubbedClean(Scrubbed(s)); }
  }

  /** The slashes in a row right before position i. */
  function SlashesBefore(s: string, i: nat): nat
    requires i <= |s|
  {
    if i > 0 && s[i - 1] == '/' then 1 + SlashesBefore(s, i - 1) else 0
  }

  /** Which positions are dropped, without reference to the scan: the two symbols, both halves of ":=", and every slash
      of a row but the last one of an odd row. */
  predicate Deleted(s: string, i: nat)
    requires i < |s|
  {
    || s[i] == '@' || s[i] == '~'
    || PairAt(s, i, ':', '=') || PairAt(s, i - 1, ':', '=')
    || (s[i] == '/' && (SlashesBefore(s, i) % 2 == 1 || PairAt(s, i, '/', '/')))
  }

  /** The symbols kept from position i on, a space showing as '_'. */
  function KeptText(s: string, i: nat): string
    requires i <= |s|
    decreases |s| - i
  {
    if i == |s| then ""
    else if Deleted(s, i) then KeptText(s, i + 1)
    else [if s[i] == ' ' then '_' else s[i]] + KeptText(s, i + 1)
  }

  /** The scan stands at i: no pair straddles it. */
  predicate AtBoundary(s: string, i: nat)
    requires i <= |s|
  {
    !PairAt(s, i - 1, ':', '=') && (i < |s| && s[i] == '/' ==> SlashesBefore(s, i) % 2 == 0)
  }

  lemma {:induction false} ScrubbedIsKept(s: string, i: nat)
    requires i <= |s| && AtBoundary(s, i)
    ensures Scrubbed(s[i..]) == KeptText(s, i)
    decreases |s| - i
  {
    if i < |s| {
      var rest := s[i..];
      assert rest[0] == s[i] && rest[1..] == s[i + 1..];
      assert forall a, b :: PairAt(rest, 0, a, b) == PairAt(s, i, a, b);
      if PairAt(s, i, ':', '=') || PairAt(s, i, '/', '/') {
        assert rest[2..] == s[i + 2..] && Deleted(s, i) && Deleted(s, i + 1);
        ScrubbedIsKept(s, i + 2);
      } else {
        ScrubbedIsKept(s, i + 1);
      }
    }
  }

  /** The two symbols and spaces never survive. */
  lemma {:induction false} KeptIsPlain(s: string, i: nat)
    requires i <= |s|
    ensures '@' !in KeptText(s, i) && '~' !in KeptText(s, i) && ' ' !in KeptText(s, i)
    decreases |s| - i
  {
    if i < |s| { KeptIsPlain(s, i + 1); }
  }

  /** Two kept positions with only deleted ones between them. */
  predicate Adjacent(s: string, p: nat, q: nat) {
    p < q < |s| && !Deleted(s, p) && !Deleted(s, q) && forall k | p < k < q :: Deleted(s, k)
  }

  ghost predicate Meets(s: string, i: nat, a: char, b: char) {
    exists p: nat, q: nat :: i <= p && Adjacent(s, p, q) && s[p] == a && s[q] == b
  }

  /** The first position kept from i on, |s| when there is none. */
  lemma {:induction false} FirstKept(s: string, i: nat) returns (q: nat)
    requires i <= |s|
    ensures i <= q <= |s| && (forall k | i <= k < q :: Deleted(s, k)) && (q < |s| ==> !Deleted(s, q))
    ensures KeptText(s, i) == KeptText(s, q)
    decreases |s| - i
  {
    if i == |s| || !Deleted(s, i) { q := i; } else { q := FirstKept(s, i + 1); }
  }

  lemma PairInCons(c: char, t: string, a: char, b: char)
    ensures HasPair([c] + t, a, b) <==> HasPair(t, a, b) || (t != "" && c == a && t[0] == b)
  {
    var s := [c] + t;
    if HasPair(s, a, b) {
      var i :| 0 <= i < |s| && PairAt(s, i, a, b);
      assert i > 0 ==> PairAt(t, i - 1, a, b);
    }
    if HasPair(t, a, b) {
      var i :| 0 <= i < |t| && PairAt(t, i, a, b);
      assert PairAt(s, i + 1, a, b);
    }
    assert t != "" && c == a && t[0] == b ==> PairAt(s, 0, a, b);
  }

  lemma {:induction false} PairMeets(s: string, i: nat, a: char, b: char)
    requires i <= |s| && a !in " _" && b !in " _"
    ensures HasPair(KeptText(s, i), a, b) <==> Meets(s, i, a, b)
    decreases |s| - i
  {
    if i < |s| {
      PairMeets(s, i + 1, a, b);
      if !Deleted(s, i) {
        PairInCons(if s[i] == ' ' then '_' else s[i], KeptText(s, i + 1), a, b);
        var q := FirstKept(s, i + 1);
        assert q < |s| ==> Adjacent(s, i, q);
        assert forall r | Adjacent(s, i, r) :: r == q;
      }
    }
  }

  /** The result is what is kept, or nothing. The whole name is lost exactly when nothing is kept, or one slash, or too
      much; or when two slashes, or the halves of ":=", are kept with only deleted positions between them: the scan does
      not look again. */
  lemma SanitizedIsLostIff(s: string)
    ensures Sanitized(s) == "" <==>
            KeptText(s, 0) == "" || KeptText(s, 0) == "/" || |KeptText(s, 0)| > MAX_NAME_LENGTH
            || Meets(s, 0, '/', '/') || Meets(s, 0, ':', '=')
    ensures Sanitized(s) == "" || Sanitized(s) == KeptText(s, 0)
  {
    assert s[0..] == s;
    ScrubbedIsKept(s, 0);
    KeptIsPlain(s, 0);
    PairMeets(s, 0, '/', '/');
    PairMeets(s, 0, ':', '=');
  }

  /** Such strings exist, for both pairs; a mere row of slashes only vanishes. */
  lemma DeletionsFormPairs()
    ensures Sanitized("/@/") == "" && Sanitized(":@=") == "" && Sanitized("a//b") == "ab"
  {
    assert Scrubbed("/@/") == "//" && PairAt("//", 0, '/', '/');
    assert Scrubbed(":@=") == ":=" && PairAt(":=", 0, ':', '=');
    assert Scrubbed("a//b") == "ab" && Clean("ab");
  }

  method AsValidTopic(topic: string) returns (valid: string)
    ensures valid == Sanitized(topic)
  {
    valid := "";
    var i := 0;
    assert topic[0..] == topic;
    while i < |topic|
      invariant i <= |topic| && Scrubbed(topic) == valid + Scrubbed(topic[i..])
    {
      var c := topic[i];
      var next := if i + 1 < |topic| then topic[i + 1] else ' ';
      assert topic[i..][0] == c && topic[i..][1..] == topic[i + 1..];
      if c == ' ' {
        valid := valid + "_";
        i := i + 1;
      } else if c == '@' || c == '~' {
        i := i + 1;
      } else if i + 1 < |topic| && ((c == ':' && next == '=') || (c == '/' && next == '/')) {
        assert topic[i..][1] == next && topic[i..][2..] == topic[i + 2..];
        i := i + 2;
      } else {
        valid := valid + [c];
        i := i + 1;
      }
    }
    assert topic[i..] == "" && valid == Scrubbed(topic);
    if !IsValidTopic(valid) {
      valid := "";
    }
  }
}
