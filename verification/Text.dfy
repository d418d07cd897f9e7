/** Delimited text: aerozen/helpers.cpp's split and the type lists of aerozen/topic_utils.cpp. */
module Text {
  import opened Publishers

  /** Position of the first `c` from `from` on, |s| when there is none (npos). */
  function Find(s: string, c: char, from: nat): (i: nat)
    requires from <= |s|
    ensures from <= i <= |s| && c !in s[from..i] && (i < |s| ==> s[i] == c)
    decreases |s| - from
  {
    if from == |s| || s[from] == c then from
    else
      var i := Find(s, c, from + 1);
      assert s[from..i] == [s[from]] + s[from + 1..i];
      i
  }

  /** The pieces of `s` between occurrences of `c`: always at least one. */
  function Split(s: string, c: char): (pieces: seq<string>)
    ensures pieces != []
    decreases |s|
  {
    var i := Find(s, c, 0);
    if i == |s| then [s] else [s[..i]] + Split(s[i + 1..], c)
  }

  function Join(pieces: seq<string>, c: char): string
    requires pieces != []
  {
    if |pieces| == 1 then pieces[0] else pieces[0] + [c] + Join(pieces[1..], c)
  }

  lemma {:induction false} JoinSplit(s: string, c: char)
    ensures Join(Split(s, c), c) == s
    ensures forall p | p in Split(s, c) :: c !in p
    decreases |s|
  {
    var i := Find(s, c, 0);
    assert s[0..i] == s[..i];
    if i == |s| {
      assert s[..i] == s;
    } else {
      JoinSplit(s[i + 1..], c);
      assert s == s[..i] + [c] + s[i + 1..];
      assert Split(s, c)[1..] == Split(s[i + 1..], c);
    }
  }

  lemma {:induction false} FindIs(s: string, c: char, from: nat, i: nat)
    requires from <= i <= |s| && (forall j | from <= j < i :: s[j] != c) && (i < |s| ==> s[i] == c)
    ensures Find(s, c, from) == i
    decreases i - from
  {
  }

  lemma SplitAfter(head: string, c: char, rest: string)
    requires c !in head
    ensures Split(head + [c] + rest, c) == [head] + Split(rest, c)
  {
    var s := head + [c] + rest;
    FindIs(s, c, 0, |head|);
    assert s[..|head|] == head && s[|head| + 1..] == rest;
  }

  lemma {:induction false} JoinConcat(x: seq<string>, y: seq<string>, c: char)
    requires x != [] && y != []
    ensures Join(x + y, c) == Join(x, c) + [c] + Join(y, c)
  {
    if |x| == 1 {
      assert (x + y)[1..] == y;
    } else {
      JoinConcat(x[1..], y, c);
      assert (x + y)[1..] == x[1..] + y;
    }
  }

  /** Joining and splitting again gives back the pieces exactly when no piece contains the delimiter. */
  lemma {:induction false} SplitJoin(pieces: seq<string>, c: char)
    requires pieces != []
    ensures Split(Join(pieces, c), c) == pieces <==> forall p | p in pieces :: c !in p
  {
    if forall p | p in pieces :: c !in p {
      if |pieces| == 1 {
        assert c !in pieces[0];
        FindIs(pieces[0], c, 0, |pieces[0]|);
      } else {
        forall p | p in pieces[1..] ensures c !in p { assert p in pieces; }
        SplitJoin(pieces[1..], c);
        SplitAfter(pieces[0], c, Join(pieces[1..], c));
      }
    } else {
      JoinSplit(Join(pieces, c), c);
    }
  }

  lemma SplitSuffix(s: string, c: char, from: nat, i: nat)
    requires from <= |s| && i == Find(s, c, from)
    ensures i == |s| ==> Split(s[from..], c) == [s[from..]]
    ensures i < |s| ==> Split(s[from..], c) == [s[from..i]] + Split(s[i + 1..], c)
  {
    var head := s[from..i];
    if i == |s| {
      assert s[from..] == head;
      FindIs(head, c, 0, |head|);
    } else {
      assert s[from..] == head + [c] + s[i + 1..];
      SplitAfter(head, c, s[i + 1..]);
    }
  }

  lemma SplitStep(s: string, c: char, pieces: seq<string>, from: nat, i: nat)
    requires from <= |s| && i == Find(s, c, from)
    requires Split(s, c) == pieces + Split(s[from..], c)
    ensures i == |s| ==> Split(s, c) == pieces + [s[from..]]
    ensures i < |s| ==> Split(s, c) == (pieces + [s[from..i]]) + Split(s[i + 1..], c)
  {
    SplitSuffix(s, c, from, i);
  }

  /** helpers.cpp: one scan with two positions. */
  method SplitScan(orig: string, delim: char) returns (pieces: seq<string>)
    ensures pieces == Split(orig, delim)
  {
    pieces := [];
    var pos1, pos2 := 0, Find(orig, delim, 0);
    assert orig[0..] == orig;
    while pos2 != |orig|
      invariant pos1 <= |orig| && pos2 == Find(orig, delim, pos1)
      invariant Split(orig, delim) == pieces + Split(orig[pos1..], delim)
      decreases |orig| - pos1
    {
      SplitStep(orig, delim, pieces, pos1, pos2);
      pieces := pieces + [orig[pos1..pos2]];
      pos1 := pos2 + 1;
      pos2 := Find(orig, delim, pos2 + 1);
    }
    SplitStep(orig, delim, pieces, pos1, pos2);
    pieces := pieces + [orig[pos1..]];
  }

  predicate TypeName(t: string) {
    t != "" && '&' !in t
  }

  function MangleType(types: seq<string>): Option<string> {
    if types != [] && forall t | t in types :: TypeName(t) then Some(Join(types, '&')) else None
  }

  function DemangleType(s: string): Option<seq<string>> {
    if forall t | t in Split(s, '&') :: t != "" then Some(Split(s, '&')) else None
  }

  /** Mangling is a bijection between the lists it accepts and the strings that demangling accepts. */
  lemma MangleIffDemangle(types: seq<string>, s: string)
    ensures MangleType(types) == Some(s) <==> DemangleType(s) == Some(types)
  {
    if MangleType(types) == Some(s) {
      SplitJoin(types, '&');
    }
    if DemangleType(s) == Some(types) {
      JoinSplit(s, '&');
    }
  }

  /** Appends each type with its separator, then drops the last separator. */
  method MangleTypeScan(types: seq<string>) returns (output: Option<string>)
    ensures output == MangleType(types)
  {
    if types == [] {
      return None;
    }
    var text := "";
    for i := 0 to |types|
      invariant forall j | 0 <= j < i :: TypeName(types[j])
      invariant text == if i == 0 then "" else Join(types[..i], '&') + "&"
    {
      if types[i] == "" || '&' in types[i] {
        assert !TypeName(types[i]) && types[i] in types;
        return None;
      }
      if i > 0 { JoinConcat(types[..i], [types[i]], '&'); }
      assert types[..i + 1] == types[..i] + [types[i]];
      text := text + types[i] + "&";
    }
    assert types[..|types|] == types;
    return Some(text[..|text| - 1]);
  }

  lemma SplitFirst(token: string, c: char, i: nat)
    requires i == Find(token, c, 0)
    ensures i == |token| ==> Split(token, c) == [token]
    ensures i < |token| ==> Split(token, c) == [token[..i]] + Split(token[i + 1..], c)
    ensures Split(token, c)[0] == token[..i]
  {
    assert token[..|token|] == token;
  }

  lemma SplitTaken(s: string, c: char, taken: seq<string>, token: string, i: nat)
    requires i == Find(token, c, 0) && Split(s, c) == taken + Split(token, c)
    ensures token[..i] in Split(s, c)
    ensures i == |token| ==> Split(s, c) == taken + [token]
    ensures i < |token| ==> Split(s, c) == (taken + [token[..i]]) + Split(token[i + 1..], c)
  {
    SplitFirst(token, c, i);
    assert Split(s, c)[|taken|] == Split(token, c)[0];
  }

  /** Takes one type at a time off the front of the remaining token. */
  method DemangleTypeScan(input: string) returns (output: Option<seq<string>>)
    ensures output == DemangleType(input)
  {
    if input == "" {
      SplitTaken(input, '&', [], input, Find(input, '&', 0));
      return None;
    }
    var types: seq<string> := [];
    var token := input;
    var firstAt := Find(token, '&', 0);
    while firstAt != |token|
      invariant firstAt == Find(token, '&', 0)
      invariant Split(input, '&') == types + Split(token, '&') && forall t | t in types :: t != ""
      decreases |token|
    {
      SplitTaken(input, '&', types, token, firstAt);
      var t := token[..firstAt];
      if t == "" {
        return None;
      }
      types := types + [t];
      token := token[firstAt + 1..];
      firstAt := Find(token, '&', 0);
    }
    SplitTaken(input, '&', types, token, firstAt);
    assert token[..firstAt] == token;
    if token == "" {
      return None;
    }
    return Some(types + [token]);
  }
}
