/** Names of aerozen/topic_utils.cpp: validity, qualification and its inverse. */
module Names {
  import opened Publishers

  const MAX_NAME_LENGTH := 65535

  predicate PairAt(s: string, i: int, a: char, b: char) {
    0 <= i && i + 1 < |s| && s[i] == a && s[i + 1] == b
  }

  predicate HasPair(s: string, a: char, b: char) {
    exists i | 0 <= i < |s| :: PairAt(s, i, a, b)
  }

  /** The rules that do not depend on the length of the name. */
  predicate Clean(s: string) {
    && '~' !in s && ' ' !in s && '@' !in s
    && !HasPair(s, '/', '/') && !HasPair(s, ':', '=')
  }

  predicate IsValidNamespace(ns: string) {
    ns == "" || (|ns| <= MAX_NAME_LENGTH && ns != "/" && Clean(ns))
  }

  predicate IsValidTopic(topic: string) {
    IsValidNamespace(topic) && topic != ""
  }

  ghost predicate IsAround(s: string, word: string, before: string, after: string) {
    s == before + word + after
  }

  ghost predicate Contains(s: string, word: string) {
    exists before, after :: IsAround(s, word, before, after)
  }

  lemma HasPairIsContains(s: string, a: char, b: char)
    ensures HasPair(s, a, b) <==> Contains(s, [a, b])
  {
    if HasPair(s, a, b) {
      var i :| 0 <= i < |s| && PairAt(s, i, a, b);
      assert IsAround(s, [a, b], s[..i], s[i + 2..]);
    }
    if Contains(s, [a, b]) {
      var before, after :| IsAround(s, [a, b], before, after);
      assert PairAt(s, |before|, a, b);
    }
  }

  /** What makes a name valid, by the symbols and words in it. A partition or namespace may also be empty. */
  lemma ValidMeans(s: string)
    ensures IsValidTopic(s) <==>
            && s != "" && s != "/" && |s| <= 65535 && '~' !in s && ' ' !in s && '@' !in s
            && !Contains(s, "//") && !Contains(s, ":=")
    ensures IsValidNamespace(s) <==> s == "" || IsValidTopic(s)
  {
    HasPairIsContains(s, '/', '/');
    HasPairIsContains(s, ':', '=');
  }

  /** The partition as it appears in a full name: a leading slash and no trailing one, or nothing. */
  function NormPartition(partition: string): string {
    var p := if partition != "" && partition[0] != '/' then "/" + partition else partition;
    if p != "" && p[|p| - 1] == '/' then p[..|p| - 1] else p
  }

  function NormNamespace(ns: string): string {
    var n := if ns == "" || ns[|ns| - 1] != '/' then ns + "/" else ns;
    if n[0] != '/' then "/" + n else n
  }

  function TrimTopic(topic: string): string {
    if topic != "" && topic[|topic| - 1] == '/' then topic[..|topic| - 1] else topic
  }

  /** Where a topic named inside a namespace lives; a leading slash ignores the namespace. */
  function Absolute(ns: string, topic: string): string {
    var t := TrimTopic(topic);
    if t != "" && t[0] == '/' then t else NormNamespace(ns) + t
  }

  function Spelled(partition: string, topic: string): string {
    "@" + partition + "@" + topic
  }

  predicate Accepted(partition: string, ns: string, topic: string) {
    && IsValidNamespace(partition) && IsValidNamespace(ns) && IsValidTopic(topic)
    && |Spelled(NormPartition(partition), Absolute(ns, topic))| <= MAX_NAME_LENGTH
  }

  function Qualified(partition: string, ns: string, topic: string): Option<string> {
    if Accepted(partition, ns, topic) then
      Some(Spelled(NormPartition(partition), Absolute(ns, topic)))
    else None
  }

  /** Rooted and without a trailing slash: the form a full name stores. */
  predicate Rooted(s: string) {
    s != "" && s[0] == '/' && s[|s| - 1] != '/'
  }

  lemma PairInConcat(x: string, y: string, a: char, b: char)
    requires HasPair(x + y, a, b)
    ensures HasPair(x, a, b) || HasPair(y, a, b) || (x != "" && y != "" && x[|x| - 1] == a && y[0] == b)
  {
    var i :| 0 <= i < |x + y| && PairAt(x + y, i, a, b);
    if i + 1 < |x| {
      assert PairAt(x, i, a, b);
    } else if i >= |x| {
      assert PairAt(y, i - |x|, a, b);
    }
  }

  lemma CleanConcat(x: string, y: string)
    requires Clean(x) && Clean(y)
    requires x != "" && y != "" ==> !(x[|x| - 1] == '/' && y[0] == '/') && !(x[|x| - 1] == ':' && y[0] == '=')
    ensures Clean(x + y)
  {
    if HasPair(x + y, '/', '/') { PairInConcat(x, y, '/', '/'); }
    if HasPair(x + y, ':', '=') { PairInConcat(x, y, ':', '='); }
  }

  lemma PairInPrefix(s: string, n: nat, a: char, b: char)
    requires n <= |s| && HasPair(s[..n], a, b)
    ensures HasPair(s, a, b)
  {
    var i :| 0 <= i < |s[..n]| && PairAt(s[..n], i, a, b);
    assert PairAt(s, i, a, b);
  }

  lemma CleanPrefix(s: string, n: nat)
    requires n <= |s| && Clean(s)
    ensures Clean(s[..n])
  {
    if HasPair(s[..n], '/', '/') { PairInPrefix(s, n, '/', '/'); }
    if HasPair(s[..n], ':', '=') { PairInPrefix(s, n, ':', '='); }
  }

  lemma NoDoubleSlash(s: string, i: int)
    requires !HasPair(s, '/', '/') && 0 <= i && i + 1 < |s| && s[i] == '/'
    ensures s[i + 1] != '/'
  {
    if s[i + 1] == '/' { assert PairAt(s, i, '/', '/'); }
  }

  lemma TrimIsClean(s: string)
    requires Clean(s) && s != "" && s != "/"
    ensures Clean(TrimTopic(s)) && TrimTopic(s) != "" && TrimTopic(s)[|TrimTopic(s)| - 1] != '/'
    ensures TrimTopic(s)[0] == s[0] && TrimTopic(s) != "/"
  {
    if s[|s| - 1] == '/' {
      assert |s| > 1;
      if s[|s| - 2] == '/' { NoDoubleSlash(s, |s| - 2); }
      CleanPrefix(s, |s| - 1);
    }
  }

  /** Every valid partition normalises to nothing or to a rooted, still clean one. */
  lemma NormPartitionIsRooted(p: string)
    requires IsValidNamespace(p)
    ensures Clean(NormPartition(p)) && (NormPartition(p) == "" <==> p == "")
    ensures p != "" ==> Rooted(NormPartition(p))
    ensures NormPartition(p) == p <==> p == "" || Rooted(p)
    ensures NormPartition(p) != "/"
  {
    if p != "" {
      var q := if p[0] != '/' then "/" + p else p;
      if p[0] != '/' { CleanConcat("/", p); }
      TrimIsClean(q);
      assert NormPartition(p) == TrimTopic(q);
    }
  }

  lemma AbsoluteIsRooted(ns: string, topic: string)
    requires IsValidNamespace(ns) && IsValidTopic(topic)
    ensures Clean(Absolute(ns, topic)) && Rooted(Absolute(ns, topic)) && Absolute(ns, topic) != "/"
    ensures Absolute(ns, topic) == topic <==> Rooted(topic)
  {
    TrimIsClean(topic);
    var t := TrimTopic(topic);
    if t[0] != '/' {
      var n := if ns == "" || ns[|ns| - 1] != '/' then ns + "/" else ns;
      if ns == "" || ns[|ns| - 1] != '/' { CleanConcat(ns, "/"); }
      if n[0] != '/' { CleanConcat("/", n); }
      CleanConcat(NormNamespace(ns), t);
    }
  }

  /** The last `c` of `s`, or -1. */
  function FindLast(s: string, c: char): (i: int)
    ensures -1 <= i < |s|
    ensures i >= 0 ==> s[i] == c
    ensures forall j | i < j < |s| :: s[j] != c
  {
    if s == "" then -1
    else if s[|s| - 1] == c then |s| - 1
    else FindLast(s[..|s| - 1], c)
  }

  function Decompose(name: string): Option<(string, string)> {
    var last := FindLast(name, '@');
    if name == "" || name[0] != '@' || last == 0 || last == |name| - 1 then None
    else
      var partition, topic := name[1..last], name[last + 1..];
      if IsValidNamespace(partition) && IsValidTopic(topic) then Some((partition, topic)) else None
  }

  /** Decomposing reads exactly the spelled names with two valid parts. */
  lemma DecomposeIffSpelled(name: string, partition: string, topic: string)
    ensures Decompose(name) == Some((partition, topic))
       <==> name == Spelled(partition, topic) && IsValidNamespace(partition) && IsValidTopic(topic)
  {
    var last := FindLast(name, '@');
    if Decompose(name) == Some((partition, topic)) {
      assert name == "@" + name[1..last] + "@" + name[last + 1..];
    }
    if name == Spelled(partition, topic) && IsValidNamespace(partition) && IsValidTopic(topic) {
      assert name[|partition| + 1] == '@';
      assert forall j | |partition| + 1 < j < |name| :: name[j] == topic[j - |partition| - 2];
      assert last == |partition| + 1;
      assert name[1..last] == partition && name[last + 1..] == topic;
    }
  }

  /** An accepted triple decomposes to its normalised partition and absolute topic, and that pair
      qualifies to the same name under every valid namespace. */
  lemma QualifiedRoundTrip(partition: string, ns: string, topic: string, otherNs: string)
    requires Accepted(partition, ns, topic) && IsValidNamespace(otherNs)
    ensures var p, t := NormPartition(partition), Absolute(ns, topic);
            && Decompose(Qualified(partition, ns, topic).value) == Some((p, t))
            && IsValidNamespace(p) && IsValidTopic(t)
            && Qualified(p, otherNs, t) == Qualified(partition, ns, topic)
  {
    var p, t := NormPartition(partition), Absolute(ns, topic);
    NormPartitionIsRooted(partition);
    AbsoluteIsRooted(ns, topic);
    DecomposeIffSpelled(Spelled(p, t), p, t);
    NormPartitionIsRooted(p);
    AbsoluteIsRooted(otherNs, t);
  }

  /** The part of a full name after its partition. */
  function Stripped(name: string): string {
    name[FindLast(name, '@') + 1..]
  }

  /** A full name stripped of its partition qualifies back to the same full name in the same node. */
  lemma StrippedRequalifies(partition: string, ns: string, topic: string)
    requires Accepted(partition, ns, topic)
    ensures Stripped(Qualified(partition, ns, topic).value) == Absolute(ns, topic)
    ensures Qualified(partition, ns, Stripped(Qualified(partition, ns, topic).value)) == Qualified(partition, ns, topic)
  {
    QualifiedRoundTrip(partition, ns, topic, ns);
    AbsoluteIsRooted(ns, topic);
    AbsoluteIsRooted(ns, Absolute(ns, topic));
  }

  /** Two accepted triples share a full name exactly when they agree on normalised partition and
      absolute topic. */
  lemma SameNameIff(p1: string, ns1: string, t1: string, p2: string, ns2: string, t2: string)
    requires Accepted(p1, ns1, t1) && Accepted(p2, ns2, t2)
    ensures Qualified(p1, ns1, t1) == Qualified(p2, ns2, t2)
       <==> NormPartition(p1) == NormPartition(p2) && Absolute(ns1, t1) == Absolute(ns2, t2)
  {
    QualifiedRoundTrip(p1, ns1, t1, ns1);
    QualifiedRoundTrip(p2, ns2, t2, ns2);
  }

  predicate Canonical(name: string, partition: string, topic: string) {
    && Decompose(name) == Some((partition, topic)) && |name| <= MAX_NAME_LENGTH
    && (partition == "" || Rooted(partition)) && Rooted(topic)
  }

  /** A name that decomposes qualifies back to itself exactly when it is canonical. */
  lemma RequalifiesIffCanonical(name: string, partition: string, topic: string, ns: string)
    requires Decompose(name) == Some((partition, topic)) && IsValidNamespace(ns)
    ensures Qualified(partition, ns, topic) == Some(name) <==> Canonical(name, partition, topic)
  {
    DecomposeIffSpelled(name, partition, topic);
    NormPartitionIsRooted(partition);
    AbsoluteIsRooted(ns, topic);
    if Qualified(partition, ns, topic) == Some(name) {
      QualifiedRoundTrip(partition, ns, topic, ns);
    }
  }

  /** The names that qualification can produce are exactly the canonical ones. */
  lemma QualifiedImage(name: string)
    ensures (exists partition, ns, topic :: Qualified(partition, ns, topic) == Some(name))
       <==> exists partition, topic :: Canonical(name, partition, topic)
  {
    if exists partition, ns, topic :: Qualified(partition, ns, topic) == Some(name) {
      var partition, ns, topic :| Qualified(partition, ns, topic) == Some(name);
      QualifiedRoundTrip(partition, ns, topic, ns);
      NormPartitionIsRooted(partition);
      AbsoluteIsRooted(ns, topic);
      assert Canonical(name, NormPartition(partition), Absolute(ns, topic));
    }
    if exists partition, topic :: Canonical(name, partition, topic) {
      var partition, topic :| Canonical(name, partition, topic);
      RequalifiesIffCanonical(name, partition, topic, "");
    }
  }

  /** How a partition or namespace shows: rooted, with nothing added to one that is. */
  function Shown(s: string): string {
    if s == "" then "" else if s[0] == '/' then s else "/" + s
  }

  predicate EndsBare(s: string) {
    s == "" || s[|s| - 1] != '/'
  }

  lemma ShownApart(s1: string, s2: string)
    requires EndsBare(s1) && EndsBare(s2) && Clean(s1) && Clean(s2)
    ensures Shown(s1) == Shown(s2) <==> s1 == s2 || s1 == "/" + s2 || s2 == "/" + s1
  {
    if |s1| > 1 && s1[0] == '/' { NoDoubleSlash(s1, 0); }
    if |s2| > 1 && s2[0] == '/' { NoDoubleSlash(s2, 0); }
    if s1 != "" && s2 != "" && Shown(s1) == Shown(s2) && s1[0] != '/' && s2[0] != '/' {
      assert s1 == Shown(s1)[1..] == s2;
    }
  }

  lemma PartitionShows(partition: string)
    requires EndsBare(partition)
    ensures NormPartition(partition) == Shown(partition) && NormPartition(partition + "/") == Shown(partition)
  {
    assert (partition + "/")[..|partition|] == partition;
    assert "/" + (partition + "/") == ("/" + partition) + "/";
    assert (("/" + partition) + "/")[..|partition| + 1] == "/" + partition;
  }

  lemma NamespaceShows(ns: string)
    requires EndsBare(ns)
    ensures NormNamespace(ns) == Shown(ns) + "/" && (ns != "" ==> NormNamespace(ns + "/") == Shown(ns) + "/")
  {
    assert "/" + (ns + "/") == ("/" + ns) + "/";
  }

  lemma TopicShows(topic: string)
    requires EndsBare(topic)
    ensures TrimTopic(topic) == topic && TrimTopic(topic + "/") == topic
  {
    assert (topic + "/")[..|topic|] == topic;
  }

  /** What is read in a full name, for names written without a trailing slash: the partition and the namespace each with
      a leading slash, and a relative topic after its namespace. */
  lemma QualifiedShows(partition: string, ns: string, topic: string)
    requires Accepted(partition, ns, topic) && EndsBare(partition) && EndsBare(ns) && EndsBare(topic)
    ensures Qualified(partition, ns, topic).value
         == "@" + (if partition == "" || partition[0] == '/' then partition else "/" + partition) + "@"
            + (if topic[0] == '/' then topic
               else if ns == "" || ns[0] == '/' then ns + "/" + topic
               else "/" + ns + "/" + topic)
  {
    PartitionShows(partition);
    NamespaceShows(ns);
    TopicShows(topic);
  }

  /** A trailing slash makes no difference, in any of the three. */
  lemma TrailingSlashIsDropped(partition: string, ns: string, topic: string)
    requires Accepted(partition, ns, topic) && EndsBare(partition) && EndsBare(ns) && EndsBare(topic)
    ensures Accepted(partition + "/", ns, topic) ==>
              Qualified(partition + "/", ns, topic) == Qualified(partition, ns, topic)
    ensures Accepted(partition, ns + "/", topic) ==>
              Qualified(partition, ns + "/", topic) == Qualified(partition, ns, topic)
    ensures Accepted(partition, ns, topic + "/") ==>
              Qualified(partition, ns, topic + "/") == Qualified(partition, ns, topic)
  {
    PartitionShows(partition);
    NamespaceShows(ns);
    TopicShows(topic);
  }

  lemma SameSuffix(x: string, y: string, end: string)
    ensures x + end == y + end <==> x == y
  {
    if x + end == y + end {
      assert |x| == |y| && x == (x + end)[..|x|] && y == (y + end)[..|y|];
    }
  }

  /** Two namespaces never give one name to a relative topic, and two partitions never to any, unless they are the same
      but for the leading slash. */
  lemma NamesKeepApart(p1: string, ns1: string, p2: string, ns2: string, topic: string)
    requires Accepted(p1, ns1, topic) && Accepted(p2, ns2, topic) && EndsBare(topic)
    requires EndsBare(p1) && EndsBare(ns1) && EndsBare(p2) && EndsBare(ns2)
    ensures Qualified(p1, ns1, topic) == Qualified(p2, ns2, topic) <==>
              (p1 == p2 || p1 == "/" + p2 || p2 == "/" + p1)
              && (topic[0] == '/' || ns1 == ns2 || ns1 == "/" + ns2 || ns2 == "/" + ns1)
  {
    SameNameIff(p1, ns1, topic, p2, ns2, topic);
    PartitionShows(p1);
    PartitionShows(p2);
    NamespaceShows(ns1);
    NamespaceShows(ns2);
    TopicShows(topic);
    SameSuffix(Shown(ns1) + "/", Shown(ns2) + "/", topic);
    SameSuffix(Shown(ns1), Shown(ns2), "/");
    ShownApart(p1, p2);
    ShownApart(ns1, ns2);
  }

  /** The rewriting half of qualification, one local string at a time. */
  method Spell(partition0: string, ns0: string, topic0: string) returns (name: string)
    ensures name == Spelled(NormPartition(partition0), Absolute(ns0, topic0))
  {
    var partition, ns, topic := partition0, ns0, topic0;
    if partition != "" && partition[0] != '/' { partition := "/" + partition; }
    if partition != "" && partition[|partition| - 1] == '/' { partition := partition[..|partition| - 1]; }
    assert partition == NormPartition(partition0);
    if ns == "" || ns[|ns| - 1] != '/' { ns := ns + "/"; }
    if ns == "" || ns[0] != '/' { ns := "/" + ns; }
    assert ns == NormNamespace(ns0);
    if topic != "" && topic[|topic| - 1] == '/' { topic := topic[..|topic| - 1]; }
    if topic != "" && topic[0] == '/' {
      name := topic;
    } else {
      name := ns + topic;
    }
    name := "@" + partition + "@" + name;
  }

  method FullyQualifiedName(partition: string, ns: string, topic: string)
    returns (ok: bool, name: string)
    ensures ok <==> Qualified(partition, ns, topic).Some?
    ensures ok ==> Some(name) == Qualified(partition, ns, topic) && |name| <= 65535
  {
    if !IsValidNamespace(partition) || !IsValidNamespace(ns) || !IsValidTopic(topic) {
      return false, "";
    }
    name := Spell(partition, ns, topic);
    ok := |name| <= MAX_NAME_LENGTH;
  }
}
