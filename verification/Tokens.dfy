/** Liveliness tokens (aerozen/topic_utils.cpp): thirteen fields joined by '/', following the
    convention of rmw_zenoh. */
module Tokens {
  import opened Publishers
  import opened Text
  import Names

  const PREFIX := "@gz"

  function Replaced(s: string, from: char, to: char): (r: string)
    ensures |r| == |s|
    ensures forall i | 0 <= i < |s| :: r[i] == if s[i] == from then to else s[i]
  {
    seq(|s|, i requires 0 <= i < |s| => if s[i] == from then to else s[i])
  }

  function MangleName(s: string): string {
    Replaced(s, '/', '%')
  }

  function DemangleName(s: string): string {
    Replaced(s, '%', '/')
  }

  /** Mangling loses nothing exactly when the name holds no '%'. */
  lemma DemangleMangle(s: string)
    ensures '/' !in MangleName(s) && (MangleName(s) == "" <==> s == "")
    ensures DemangleName(MangleName(s)) == s <==> '%' !in s
  {
  }

  datatype Parts = Parts(prefix: string, partition: string, topic: string, pUuid: string,
                         nUuid: string, entityType: string)

  /** The fields of a token, as every creator writes them. */
  function Fields(partition: string, topic: string, pUuid: string, nUuid: string, entityType: string,
                  typeName: string): (fields: seq<string>)
    ensures |fields| == 13
  {
    [PREFIX, MangleName(partition), pUuid, nUuid, nUuid, entityType, "%", "%", "%", MangleName(topic),
     typeName, "%", "%"]
  }

  function CreateHelper(name: string, pUuid: string, nUuid: string, entityType: string): string {
    match Names.Decompose(name)
    case None => ""
    case Some((partition, topic)) =>
      PREFIX + "/" + MangleName(partition) + "/" + pUuid + "/" + nUuid + "/" + nUuid + "/" + entityType +
      "/" + "%" + "/" + "%" + "/" + "%" + "/" + MangleName(topic) + "/"
  }

  function CreateToken(name: string, pUuid: string, nUuid: string, entityType: string, typeName: string): string {
    CreateHelper(name, pUuid, nUuid, entityType) + typeName + "/" + "%" + "/" + "%"
  }

  function CreateServiceToken(name: string, pUuid: string, nUuid: string, entityType: string,
                              reqType: string, repType: string): string {
    match MangleType([reqType, repType])
    case None => ""
    case Some(types) => CreateHelper(name, pUuid, nUuid, entityType) + types + "/" + "%" + "/" + "%"
  }

  /** The first ten fields, and the rest of the token unparsed. */
  function DecomposeHelper(token: string): Option<(Parts, string)> {
    var f := Split(token, '/');
    if |f| < 11 || token == "" || token[0] != '@' || (exists i | 1 <= i < 10 :: f[i] == "") then None
    else if !Names.IsValidNamespace(DemangleName(f[1])) || !Names.IsValidTopic(DemangleName(f[9])) then None
    else Some((Parts(f[0], DemangleName(f[1]), DemangleName(f[9]), f[2], f[3], f[5]), Join(f[10..], '/')))
  }

  function DecomposeToken(token: string): Option<(Parts, string)> {
    match DecomposeHelper(token)
    case None => None
    case Some((parts, rest)) =>
      var f := Split(rest, '/');
      if |f| != 3 || f[1] == "" then None else Some((parts, f[0]))
  }

  function DecomposeServiceToken(token: string): Option<(Parts, string, string)> {
    match DecomposeHelper(token)
    case None => None
    case Some((parts, rest)) =>
      var f := Split(rest, '/');
      if |f| != 3 || f[1] == "" then None
      else match DemangleType(f[0])
           case None => None
           case Some(types) => if |types| == 2 then Some((parts, types[0], types[1])) else None
  }

  lemma SplitConcat(a: string, c: char, b: string)
    ensures Split(a + [c] + b, c) == Split(a, c) + Split(b, c)
  {
    JoinSplit(a, c);
    JoinSplit(b, c);
    JoinConcat(Split(a, c), Split(b, c), c);
    SplitJoin(Split(a, c) + Split(b, c), c);
  }

  lemma OnePiece(s: string, c: char)
    ensures |Split(s, c)| == 1 <==> c !in s
  {
  }

  /** Splitting a joined list keeps its length exactly when no piece contains the delimiter. */
  lemma {:induction false} SplitKeepsLength(pieces: seq<string>, c: char)
    requires pieces != []
    ensures |Split(Join(pieces, c), c)| >= |pieces|
    ensures |Split(Join(pieces, c), c)| == |pieces| <==> forall p | p in pieces :: c !in p
  {
    OnePiece(pieces[0], c);
    if |pieces| > 1 {
      SplitConcat(pieces[0], c, Join(pieces[1..], c));
      SplitKeepsLength(pieces[1..], c);
      assert forall p :: p in pieces <==> p == pieces[0] || p in pieces[1..];
    }
  }

  /** Splitting what follows the first n delimiters. */
  lemma SplitOfJoinedTail(fields: seq<string>, c: char, n: nat)
    requires n < |fields| && forall p | p in fields :: c !in p
    ensures Split(Join(fields[n..], c), c) == fields[n..]
  {
    SplitJoin(fields[n..], c);
  }

  /** A token whose fields are `f` decomposes at most when they are free of slashes and non-empty. */
  predicate Legible(f: seq<string>)
    requires |f| == 13
  {
    && (forall p | p in f :: '/' !in p)
    && (forall i | 1 <= i < 10 :: f[i] != "")
    && Names.IsValidNamespace(DemangleName(f[1])) && Names.IsValidTopic(DemangleName(f[9]))
  }

  function PartsOf(f: seq<string>): Parts
    requires |f| == 13
  {
    Parts(f[0], DemangleName(f[1]), DemangleName(f[9]), f[2], f[3], f[5])
  }

  lemma DecomposeSplittable(f: seq<string>)
    requires |f| == 13 && f[0] == PREFIX && forall p | p in f :: '/' !in p
    ensures Legible(f) <==> DecomposeHelper(Join(f, '/')).Some?
    ensures Legible(f) ==> DecomposeHelper(Join(f, '/')) == Some((PartsOf(f), Join(f[10..], '/')))
    ensures Split(Join(f[10..], '/'), '/') == f[10..]
  {
    SplitJoin(f, '/');
    SplitOfJoinedTail(f, '/', 10);
    assert Join(f, '/')[0] == '@';
  }

  lemma DecomposeUnsplittable(f: seq<string>)
    requires |f| == 13 && exists p :: p in f && '/' in p
    ensures DecomposeToken(Join(f, '/')).None? && DecomposeServiceToken(Join(f, '/')).None?
  {
    var token := Join(f, '/');
    var g := Split(token, '/');
    SplitKeepsLength(f, '/');
    JoinSplit(token, '/');
    SplitOfJoinedTail(g, '/', 10);
  }

  lemma JoinTake(f: seq<string>, k: nat)
    requires 1 <= k < |f|
    ensures Join(f[..k + 1], '/') == Join(f[..k], '/') + "/" + f[k]
  {
    assert f[..k + 1] == f[..k] + [f[k]];
    JoinConcat(f[..k], [f[k]], '/');
  }

  lemma JoinOfTen(f: seq<string>)
    requires |f| >= 10
    ensures Join(f[..10], '/') == f[0] + "/" + f[1] + "/" + f[2] + "/" + f[3] + "/" + f[4] + "/" + f[5]
                                  + "/" + f[6] + "/" + f[7] + "/" + f[8] + "/" + f[9]
  {
    JoinTake(f, 1); JoinTake(f, 2); JoinTake(f, 3); JoinTake(f, 4); JoinTake(f, 5);
    JoinTake(f, 6); JoinTake(f, 7); JoinTake(f, 8); JoinTake(f, 9);
  }

  lemma JoinOfThirteen(f: seq<string>)
    requires |f| == 13
    ensures Join(f, '/') == Join(f[..10], '/') + "/" + f[10] + "/" + f[11] + "/" + f[12]
  {
    JoinTake(f, 10); JoinTake(f, 11); JoinTake(f, 12);
    assert f[..13] == f;
  }

  /** The concatenation that the creators write is the join of the thirteen fields. */
  lemma CreatedIsJoined(name: string, partition: string, topic: string, pUuid: string, nUuid: string,
                        entityType: string, typeName: string)
    requires Names.Decompose(name) == Some((partition, topic))
    ensures CreateHelper(name, pUuid, nUuid, entityType) + typeName + "/" + "%" + "/" + "%"
         == Join(Fields(partition, topic, pUuid, nUuid, entityType, typeName), '/')
  {
    var f := Fields(partition, topic, pUuid, nUuid, entityType, typeName);
    JoinOfTen(f);
    JoinOfThirteen(f);
    assert Join(f[..10], '/') + "/" == CreateHelper(name, pUuid, nUuid, entityType);
  }

  /** What is read in a token, field by field, when none of the texts in it holds a slash. */
  lemma TokenLayout(name: string, partition: string, topic: string, pUuid: string, nUuid: string, entityType: string,
                    typeName: string)
    requires Names.Decompose(name) == Some((partition, topic))
    requires '/' !in pUuid && '/' !in nUuid && '/' !in entityType && '/' !in typeName
    ensures var f := Split(CreateToken(name, pUuid, nUuid, entityType, typeName), '/');
            && |f| == 13 && f[0] == "@gz" && f[2] == pUuid && f[3] == nUuid && f[4] == nUuid && f[5] == entityType
            && f[6] == "%" && f[7] == "%" && f[8] == "%" && f[10] == typeName && f[11] == "%" && f[12] == "%"
            && |f[1]| == |partition| && |f[9]| == |topic|
            && (forall i | 0 <= i < |partition| :: f[1][i] == if partition[i] == '/' then '%' else partition[i])
            && (forall i | 0 <= i < |topic| :: f[9][i] == if topic[i] == '/' then '%' else topic[i])
  {
    var f := Fields(partition, topic, pUuid, nUuid, entityType, typeName);
    CreatedIsJoined(name, partition, topic, pUuid, nUuid, entityType, typeName);
    FieldsSlashFree(partition, topic, pUuid, nUuid, entityType, typeName);
    SplitJoin(f, '/');
  }

  /** The types of a service token share the field that a message token has for its one. */
  lemma ServiceTokenLayout(name: string, pUuid: string, nUuid: string, entityType: string, reqType: string,
                           repType: string)
    ensures CreateServiceToken(name, pUuid, nUuid, entityType, reqType, repType)
         == if reqType == "" || repType == "" || '&' in reqType || '&' in repType then ""
            else CreateToken(name, pUuid, nUuid, entityType, reqType + "&" + repType)
  {
    if TypeName(reqType) && TypeName(repType) {
      MangledPair(reqType, repType);
    } else {
      assert reqType in [reqType, repType] && repType in [reqType, repType];
    }
  }

  /** What a caller of the creators must supply for the token to be read back. */
  predicate Portable(partition: string, topic: string, pUuid: string, nUuid: string, entityType: string) {
    && partition != "" && '%' !in partition && '%' !in topic
    && pUuid != "" && nUuid != "" && entityType != ""
    && '/' !in pUuid && '/' !in nUuid && '/' !in entityType
  }

  lemma FieldsSlashFree(partition: string, topic: string, pUuid: string, nUuid: string, entityType: string,
                        typeName: string)
    ensures (forall p | p in Fields(partition, topic, pUuid, nUuid, entityType, typeName) :: '/' !in p)
       <==> '/' !in pUuid && '/' !in nUuid && '/' !in entityType && '/' !in typeName
  {
  }

  lemma FieldsNonEmpty(partition: string, topic: string, pUuid: string, nUuid: string, entityType: string,
                       typeName: string)
    requires topic != ""
    ensures (forall i | 1 <= i < 10 :: Fields(partition, topic, pUuid, nUuid, entityType, typeName)[i] != "")
       <==> partition != "" && pUuid != "" && nUuid != "" && entityType != ""
  {
    var f := Fields(partition, topic, pUuid, nUuid, entityType, typeName);
    DemangleMangle(partition);
    DemangleMangle(topic);
    assert f[1] == MangleName(partition) && f[2] == pUuid && f[3] == nUuid && f[5] == entityType;
  }

  /** Which field lists built by the creators are legible and carry the inputs unchanged. */
  lemma FieldsLegible(name: string, partition: string, topic: string, pUuid: string, nUuid: string,
                      entityType: string, typeName: string)
    requires Names.Decompose(name) == Some((partition, topic))
    ensures Legible(Fields(partition, topic, pUuid, nUuid, entityType, typeName))
            && PartsOf(Fields(partition, topic, pUuid, nUuid, entityType, typeName))
               == Parts(PREFIX, partition, topic, pUuid, nUuid, entityType)
       <==> Portable(partition, topic, pUuid, nUuid, entityType) && '/' !in typeName
  {
    DemangleMangle(partition);
    DemangleMangle(topic);
    Names.DecomposeIffSpelled(name, partition, topic);
    FieldsSlashFree(partition, topic, pUuid, nUuid, entityType, typeName);
    FieldsNonEmpty(partition, topic, pUuid, nUuid, entityType, typeName);
  }

  /** A message token is read back as its inputs exactly when they are portable and the type name
      holds no slash. An empty partition, or a '%' in the partition or topic, is not portable. */
  lemma TokenRoundTrip(name: string, partition: string, topic: string, pUuid: string, nUuid: string,
                       entityType: string, typeName: string)
    requires Names.Decompose(name) == Some((partition, topic))
    ensures DecomposeToken(CreateToken(name, pUuid, nUuid, entityType, typeName))
            == Some((Parts(PREFIX, partition, topic, pUuid, nUuid, entityType), typeName))
       <==> Portable(partition, topic, pUuid, nUuid, entityType) && '/' !in typeName
  {
    var f := Fields(partition, topic, pUuid, nUuid, entityType, typeName);
    CreatedIsJoined(name, partition, topic, pUuid, nUuid, entityType, typeName);
    FieldsLegible(name, partition, topic, pUuid, nUuid, entityType, typeName);
    if forall p | p in f :: '/' !in p { DecomposeSplittable(f); } else { DecomposeUnsplittable(f); }
  }

  predicate PortableType(t: string) {
    TypeName(t) && '/' !in t
  }

  lemma MangledPair(reqType: string, repType: string)
    requires TypeName(reqType) && TypeName(repType)
    ensures MangleType([reqType, repType]) == Some(reqType + ['&'] + repType)
    ensures DemangleType(reqType + ['&'] + repType) == Some([reqType, repType])
  {
    JoinConcat([reqType], [repType], '&');
    assert [reqType, repType] == [reqType] + [repType];
    MangleIffDemangle([reqType, repType], reqType + ['&'] + repType);
  }

  lemma MangledSlashFree(reqType: string, repType: string)
    ensures '/' !in reqType + ['&'] + repType <==> '/' !in reqType && '/' !in repType
  {
  }

  lemma ServiceTokenOfTypes(name: string, partition: string, topic: string, pUuid: string, nUuid: string,
                            entityType: string, reqType: string, repType: string)
    requires Names.Decompose(name) == Some((partition, topic)) && TypeName(reqType) && TypeName(repType)
    ensures DecomposeServiceToken(CreateServiceToken(name, pUuid, nUuid, entityType, reqType, repType))
            == Some((Parts(PREFIX, partition, topic, pUuid, nUuid, entityType), reqType, repType))
       <==> Portable(partition, topic, pUuid, nUuid, entityType) && PortableType(reqType) && PortableType(repType)
  {
    var types := reqType + ['&'] + repType;
    var f := Fields(partition, topic, pUuid, nUuid, entityType, types);
    MangledPair(reqType, repType);
    MangledSlashFree(reqType, repType);
    CreatedIsJoined(name, partition, topic, pUuid, nUuid, entityType, types);
    FieldsLegible(name, partition, topic, pUuid, nUuid, entityType, types);
    if forall p | p in f :: '/' !in p { DecomposeSplittable(f); } else { DecomposeUnsplittable(f); }
  }

  /** The same for a service token, whose two types travel mangled in one field. */
  lemma ServiceTokenRoundTrip(name: string, partition: string, topic: string, pUuid: string, nUuid: string,
                              entityType: string, reqType: string, repType: string)
    requires Names.Decompose(name) == Some((partition, topic))
    ensures DecomposeServiceToken(CreateServiceToken(name, pUuid, nUuid, entityType, reqType, repType))
            == Some((Parts(PREFIX, partition, topic, pUuid, nUuid, entityType), reqType, repType))
       <==> Portable(partition, topic, pUuid, nUuid, entityType) && PortableType(reqType) && PortableType(repType)
  {
    if TypeName(reqType) && TypeName(repType) {
      ServiceTokenOfTypes(name, partition, topic, pUuid, nUuid, entityType, reqType, repType);
    } else {
      assert reqType in [reqType, repType] && repType in [reqType, repType];
      assert DecomposeServiceToken("").None?;
    }
  }

  /** Tokens are injective on portable inputs. */
  lemma TokenInjective(name1: string, parts1: Parts, type1: string, name2: string, parts2: Parts, type2: string)
    requires parts1.prefix == PREFIX == parts2.prefix
    requires Names.Decompose(name1) == Some((parts1.partition, parts1.topic))
    requires Names.Decompose(name2) == Some((parts2.partition, parts2.topic))
    requires Portable(parts1.partition, parts1.topic, parts1.pUuid, parts1.nUuid, parts1.entityType) && '/' !in type1
    requires Portable(parts2.partition, parts2.topic, parts2.pUuid, parts2.nUuid, parts2.entityType) && '/' !in type2
    requires CreateToken(name1, parts1.pUuid, parts1.nUuid, parts1.entityType, type1)
          == CreateToken(name2, parts2.pUuid, parts2.nUuid, parts2.entityType, type2)
    ensures name1 == name2 && parts1 == parts2 && type1 == type2
  {
    TokenRoundTrip(name1, parts1.partition, parts1.topic, parts1.pUuid, parts1.nUuid, parts1.entityType, type1);
    TokenRoundTrip(name2, parts2.partition, parts2.topic, parts2.pUuid, parts2.nUuid, parts2.entityType, type2);
    Names.DecomposeIffSpelled(name1, parts1.partition, parts1.topic);
    Names.DecomposeIffSpelled(name2, parts2.partition, parts2.topic);
  }

  /** So are service tokens. */
  lemma ServiceTokenInjective(name1: string, parts1: Parts, req1: string, rep1: string,
                              name2: string, parts2: Parts, req2: string, rep2: string)
    requires parts1.prefix == PREFIX == parts2.prefix
    requires Names.Decompose(name1) == Some((parts1.partition, parts1.topic))
    requires Names.Decompose(name2) == Some((parts2.partition, parts2.topic))
    requires Portable(parts1.partition, parts1.topic, parts1.pUuid, parts1.nUuid, parts1.entityType)
    requires Portable(parts2.partition, parts2.topic, parts2.pUuid, parts2.nUuid, parts2.entityType)
    requires PortableType(req1) && PortableType(rep1) && PortableType(req2) && PortableType(rep2)
    requires CreateServiceToken(name1, parts1.pUuid, parts1.nUuid, parts1.entityType, req1, rep1)
          == CreateServiceToken(name2, parts2.pUuid, parts2.nUuid, parts2.entityType, req2, rep2)
    ensures name1 == name2 && parts1 == parts2 && req1 == req2 && rep1 == rep2
  {
    ServiceTokenRoundTrip(name1, parts1.partition, parts1.topic, parts1.pUuid, parts1.nUuid, parts1.entityType,
                          req1, rep1);
    ServiceTokenRoundTrip(name2, parts2.partition, parts2.topic, parts2.pUuid, parts2.nUuid, parts2.entityType,
                          req2, rep2);
    Names.DecomposeIffSpelled(name1, parts1.partition, parts1.topic);
    Names.DecomposeIffSpelled(name2, parts2.partition, parts2.topic);
  }

  /** With a name that does not decompose the suffix is still appended, but a slash-free type never
      makes a token of it. */
  lemma NoTokenWithoutName(name: string, pUuid: string, nUuid: string, entityType: string, typeName: string)
    requires Names.Decompose(name) == None && '/' !in typeName
    ensures CreateToken(name, pUuid, nUuid, entityType, typeName) == typeName + "/%/%"
    ensures DecomposeToken(CreateToken(name, pUuid, nUuid, entityType, typeName)).None?
  {
    var token := CreateToken(name, pUuid, nUuid, entityType, typeName);
    assert token == typeName + ['/'] + ("%" + ['/'] + "%") == typeName + "/%/%";
    SplitAfter(typeName, '/', "%" + ['/'] + "%");
    SplitAfter("%", '/', "%");
    OnePiece("%", '/');
  }

  lemma {:induction false} CountDelimiters(s: string, c: char)
    ensures |Split(s, c)| == multiset(s)[c] + 1
    decreases |s|
  {
    var i := Find(s, c, 0);
    assert s[0..i] == s[..i];
    if i < |s| {
      assert s == s[..i] + [c] + s[i + 1..];
      CountDelimiters(s[i + 1..], c);
    } else {
      assert s[..i] == s;
    }
  }

  /** Takes the next field off the front of the token, with its delimiter. */
  method NextField(token: string, ghost f: seq<string>, ghost k: nat) returns (field: string, rest: string)
    requires k + 1 < |f| && Split(token, '/') == f[k..]
    ensures field == f[k] && Split(rest, '/') == f[k + 1..]
  {
    var firstAt := Find(token, '/', 0);
    assert f[k..][0] == f[k] && f[k..][1..] == f[k + 1..];
    assert firstAt < |token| by {
      assert |Split(token, '/')| > 1;
    }
    field := token[..firstAt];
    rest := token[firstAt + 1..];
  }

  /** Three fields in a row, giving up at an empty one. */
  method NextThree(token: string, ghost f: seq<string>, ghost k: nat)
    returns (ok: bool, a: string, b: string, c: string, rest: string)
    requires k + 3 < |f| && Split(token, '/') == f[k..]
    ensures ok <==> f[k] != "" && f[k + 1] != "" && f[k + 2] != ""
    ensures ok ==> a == f[k] && b == f[k + 1] && c == f[k + 2] && Split(rest, '/') == f[k + 3..]
  {
    b, c := "", "";
    a, rest := NextField(token, f, k);
    if a == "" { return false, a, b, c, rest; }
    b, rest := NextField(rest, f, k + 1);
    if b == "" { return false, a, b, c, rest; }
    c, rest := NextField(rest, f, k + 2);
    ok := c != "";
  }

  /** The nine fields after the prefix; none may be empty, and five of them are kept. */
  method NextNine(input: string, ghost f: seq<string>)
    returns (ok: bool, partition: string, topic: string, pUuid: string, nUuid: string, entityType: string,
             rest: string)
    requires |f| > 10 && Split(input, '/') == f[1..]
    ensures ok <==> forall i | 1 <= i < 10 :: f[i] != ""
    ensures ok ==> partition == f[1] && pUuid == f[2] && nUuid == f[3] && entityType == f[5] && topic == f[9]
    ensures ok ==> Split(rest, '/') == f[10..]
  {
    var unused, unused2: string;
    topic, entityType := "", "";
    ok, partition, pUuid, nUuid, rest := NextThree(input, f, 1);
    if !ok { return; }
    ok, unused, entityType, unused2, rest := NextThree(rest, f, 4);
    if !ok { return; }
    ok, unused, unused2, topic, rest := NextThree(rest, f, 7);
  }

  /** The code erases one field after another from a local copy of the token. */
  method DecomposeHelperScan(input: string) returns (result: Option<(Parts, string)>)
    ensures result == DecomposeHelper(input)
  {
    CountDelimiters(input, '/');
    if multiset(input)['/'] < 10 { return None; }
    if input == "" || Find(input, '@', 0) != 0 { return None; }
    ghost var f := Split(input, '/');
    assert f[0..] == f;
    var prefix, token := NextField(input, f, 0);
    var ok, partition, topic, pUuid, nUuid, entityType, rest := NextNine(token, f);
    if !ok { return None; }
    partition, topic := DemangleName(partition), DemangleName(topic);
    if !Names.IsValidNamespace(partition) || !Names.IsValidTopic(topic) { return None; }
    JoinSplit(rest, '/');
    return Some((Parts(prefix, partition, topic, pUuid, nUuid, entityType), rest));
  }

  method DecomposeTokenScan(input: string) returns (result: Option<(Parts, string)>)
    ensures result == DecomposeToken(input)
  {
    var helped := DecomposeHelperScan(input);
    if helped == None { return None; }
    var (parts, token) := helped.value;
    CountDelimiters(token, '/');
    if multiset(token)['/'] != 2 { return None; }
    ghost var f := Split(token, '/');
    assert f[0..] == f;
    var typeName, unused: string;
    typeName, token := NextField(token, f, 0);
    unused, token := NextField(token, f, 1);
    if unused == "" { return None; }
    return Some((parts, typeName));
  }

  method DecomposeServiceTokenScan(input: string) returns (result: Option<(Parts, string, string)>)
    ensures result == DecomposeServiceToken(input)
  {
    var helped := DecomposeHelperScan(input);
    if helped == None { return None; }
    var (parts, token) := helped.value;
    CountDelimiters(token, '/');
    if multiset(token)['/'] != 2 { return None; }
    ghost var f := Split(token, '/');
    assert f[0..] == f;
    var mangled, unused: string;
    mangled, token := NextField(token, f, 0);
    var types := DemangleTypeScan(mangled);
    if types == None || |types.value| != 2 { return None; }
    unused, token := NextField(token, f, 1);
    if unused == "" { return None; }
    return Some((parts, types.value[0], types.value[1]));
  }
}
