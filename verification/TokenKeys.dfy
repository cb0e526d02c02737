/**
 Keys of token-generation-states. The table keys are strings whose parts are joined by '#';
 V1 deletions match them by prefix and V1 additions by containment.
 */
module TokenKeys {
  import opened Basics

  datatype TokenPK =
    | ClientKid(clientId: Id, kid: Id)
    | ClientKidPurpose(clientId: Id, kid: Id, purposeId: Id)

  const CLIENT_KID := "CLIENTKID"
  const CLIENT_KID_PURPOSE := "CLIENTKIDPURPOSE"

  function Word(pk: TokenPK): string {
    if pk.ClientKid? then CLIENT_KID else CLIENT_KID_PURPOSE
  }

  /** The part after the kid: nothing, or the separator and the purpose id. */
  function Tail(pk: TokenPK): string {
    if pk.ClientKid? then "" else "#" + pk.purposeId
  }

  /** The key as the table stores it. */
  function Render(pk: TokenPK): string {
    Word(pk) + "#" + (pk.clientId + "#" + (pk.kid + Tail(pk)))
  }

  predicate Contains(s: string, t: string) {
    exists i | 0 <= i <= |s| :: t <= s[i..]
  }

  /** Filter expressions on the primary key. */
  datatype KeyFilter =
    | BeginsWith(prefix: string)
    | ContainsText(text: string)

  predicate Hits(f: KeyFilter, pk: TokenPK) {
    match f
    case BeginsWith(prefix) => prefix <= Render(pk)
    case ContainsText(text) => Contains(Render(pk), text)
  }

  /** The two prefixes with which `deleteEntriesFromTokenGenStatesByClientIdKidV1` scans. */
  function KidPrefix(word: string, clientId: Id, kid: Id): KeyFilter {
    BeginsWith(word + "#" + (clientId + "#" + kid))
  }

  /** The two prefixes with which `deleteEntriesFromTokenGenStatesByClientIdV1` scans. */
  function ClientPrefix(word: string, clientId: Id): KeyFilter {
    BeginsWith(word + "#" + clientId)
  }

  predicate HitsKid(clientId: Id, kid: Id, pk: TokenPK) {
    Hits(KidPrefix(CLIENT_KID, clientId, kid), pk) || Hits(KidPrefix(CLIENT_KID_PURPOSE, clientId, kid), pk)
  }

  predicate HitsClient(clientId: Id, pk: TokenPK) {
    Hits(ClientPrefix(CLIENT_KID, clientId), pk) || Hits(ClientPrefix(CLIENT_KID_PURPOSE, clientId), pk)
  }

  // ---- exactness of the string filters ----

  predicate Plain(s: string) {
    '#' !in s
  }

  predicate PlainKey(pk: TokenPK) {
    Plain(pk.clientId) && Plain(pk.kid) && (pk.ClientKidPurpose? ==> Plain(pk.purposeId))
  }

  /** The length of the first part. */
  function FirstPart(s: string): nat {
    if s == "" || s[0] == '#' then 0 else 1 + FirstPart(s[1..])
  }

  lemma {:induction false} FirstPartOf(a: string, x: string)
    requires Plain(a) && (x == "" || x[0] == '#')
    ensures FirstPart(a + x) == |a|
  {
    if a == "" {
      assert a + x == x;
    } else {
      assert (a + x)[1..] == a[1..] + x;
      FirstPartOf(a[1..], x);
    }
  }

  lemma {:induction false} FirstPartOfPrefix(t: string, s: string)
    requires t <= s && !Plain(t)
    ensures FirstPart(t) == FirstPart(s)
  {
    if t[0] != '#' {
      FirstPartOfPrefix(t[1..], s[1..]);
    }
  }

  lemma SplitPrefix(a: string, x: string, b: string, y: string)
    requires Plain(a) && Plain(b)
    ensures b + "#" + y <= a + "#" + x <==> a == b && y <= x
  {
    var s, t := a + ("#" + x), b + ("#" + y);
    assert s == a + "#" + x && t == b + "#" + y;
    assert t[|b|] == '#';
    FirstPartOf(a, "#" + x);
    FirstPartOf(b, "#" + y);
    if t <= s {
      FirstPartOfPrefix(t, s);
      assert a == s[..|a|] == t[..|a|] == b;
      assert x == s[|a| + 1..] && y == t[|a| + 1..];
    }
    if a == b && y <= x {
      assert s == t + x[|y|..];
    }
  }

  lemma PlainPrefix(a: string, x: string, k: string)
    requires Plain(k) && (x == "" || x[0] == '#')
    ensures k <= a + x <==> k <= a
  {
    var s := a + x;
    if x != "" { assert s[|a|] == '#'; }
    assert k <= s && |k| <= |a| ==> k == s[..|k|] == a[..|k|];
    assert k <= a ==> k <= s;
  }

  lemma WordsArePlain()
    ensures Plain(CLIENT_KID) && Plain(CLIENT_KID_PURPOSE) && CLIENT_KID != CLIENT_KID_PURPOSE
  {
  }

  /** The kid prefixes hit exactly the keys of that client whose kid begins with the given one. */
  lemma KidHits(clientId: Id, kid: Id, pk: TokenPK)
    requires PlainKey(pk) && Plain(clientId) && Plain(kid)
    ensures HitsKid(clientId, kid, pk) <==> pk.clientId == clientId && kid <= pk.kid
  {
    WordsArePlain();
    forall word | word == CLIENT_KID || word == CLIENT_KID_PURPOSE
      ensures Hits(KidPrefix(word, clientId, kid), pk) <==> Word(pk) == word && pk.clientId == clientId && kid <= pk.kid
    {
      SplitPrefix(Word(pk), pk.clientId + "#" + (pk.kid + Tail(pk)), word, clientId + "#" + kid);
      SplitPrefix(pk.clientId, pk.kid + Tail(pk), clientId, kid);
      PlainPrefix(pk.kid, Tail(pk), kid);
    }
  }

  /** The client prefixes hit exactly the keys of the clients whose id begins with the given one. */
  lemma ClientHits(clientId: Id, pk: TokenPK)
    requires PlainKey(pk) && Plain(clientId)
    ensures HitsClient(clientId, pk) <==> clientId <= pk.clientId
  {
    WordsArePlain();
    var rest := "#" + (pk.kid + Tail(pk));
    forall word | word == CLIENT_KID || word == CLIENT_KID_PURPOSE
      ensures Hits(ClientPrefix(word, clientId), pk) <==> Word(pk) == word && clientId <= pk.clientId
    {
      assert pk.clientId + "#" + (pk.kid + Tail(pk)) == pk.clientId + rest;
      SplitPrefix(Word(pk), pk.clientId + rest, word, clientId);
      PlainPrefix(pk.clientId, rest, clientId);
    }
  }

  lemma ContainsSplit(a: string, b: string, t: string)
    requires Plain(t)
    ensures Contains(a + "#" + b, t) <==> Contains(a, t) || Contains(b, t)
  {
    var s := a + "#" + b;
    if i :| 0 <= i <= |s| && t <= s[i..] {
      if i <= |a| {
        var rest := "#" + b;
        assert s[i..] == a[i..] + rest;
        PlainPrefix(a[i..], rest, t);
      } else {
        assert s[i..] == b[i - |a| - 1..];
      }
    }
    if i :| 0 <= i <= |a| && t <= a[i..] {
      assert s[i..] == a[i..] + ("#" + b);
    }
    if i :| 0 <= i <= |b| && t <= b[i..] {
      assert s[i + |a| + 1..] == b[i..];
    }
  }

  /** Containment hits a key exactly when one of its parts, or its leading word, contains the text. */
  lemma TextHits(text: string, pk: TokenPK)
    requires Plain(text)
    ensures Hits(ContainsText(text), pk) <==>
            || Contains(Word(pk), text) || Contains(pk.clientId, text) || Contains(pk.kid, text)
            || (pk.ClientKidPurpose? && Contains(pk.purposeId, text))
  {
    var k := pk.kid + Tail(pk);
    ContainsSplit(Word(pk), pk.clientId + "#" + k, text);
    ContainsSplit(pk.clientId, k, text);
    if pk.ClientKidPurpose? {
      assert k == pk.kid + "#" + pk.purposeId;
      ContainsSplit(pk.kid, pk.purposeId, text);
    } else {
      assert k == pk.kid;
    }
  }

  /** The ids met together: a client's own keys, and nobody else's, are hit by the V1 filters on it. */
  ghost predicate Apart(keys: set<TokenPK>, clientId: Id) {
    && Plain(clientId)
    && (forall pk <- keys :: PlainKey(pk))
    && (forall pk <- keys :: !Contains(Word(pk), clientId) && !Contains(pk.kid, clientId))
    && (forall pk <- keys | pk.ClientKidPurpose? :: !Contains(pk.purposeId, clientId))
    && (forall pk <- keys | Contains(pk.clientId, clientId) :: pk.clientId == clientId)
  }

  lemma ContainsPrefix(s: string, t: string)
    requires t <= s
    ensures Contains(s, t)
  {
    assert s[0..] == s;
  }

  lemma ApartIsExact(keys: set<TokenPK>, clientId: Id, pk: TokenPK)
    requires Apart(keys, clientId) && pk in keys
    ensures Hits(ContainsText(clientId), pk) <==> pk.clientId == clientId
    ensures HitsClient(clientId, pk) <==> pk.clientId == clientId
  {
    TextHits(clientId, pk);
    ClientHits(clientId, pk);
    if clientId <= pk.clientId { ContainsPrefix(pk.clientId, clientId); }
  }

  /** Deleting a key by prefix removes no other key of the client exactly when
      the deleted kid is not a proper prefix of another one. */
  lemma KidDeletionIsExact(keys: set<TokenPK>, clientId: Id, kid: Id)
    requires Plain(clientId) && Plain(kid) && forall pk <- keys :: PlainKey(pk)
    ensures (forall pk <- keys :: HitsKid(clientId, kid, pk) <==> pk.clientId == clientId && pk.kid == kid) <==>
            (forall pk <- keys | pk.clientId == clientId && pk.kid != kid :: !(kid <= pk.kid))
  {
    forall pk | pk in keys { KidHits(clientId, kid, pk); }
  }

  /** Two plain keys render alike only if they are the same key, so a table keyed by `TokenPK`
      stands for the table keyed by strings. */
  lemma RenderIsInjective(x: TokenPK, y: TokenPK)
    requires PlainKey(x) && PlainKey(y) && Render(x) == Render(y)
    ensures x == y
  {
    WordsArePlain();
    var kx, ky := x.kid + Tail(x), y.kid + Tail(y);
    SplitPrefix(Word(x), x.clientId + "#" + kx, Word(y), y.clientId + "#" + ky);
    SplitPrefix(Word(y), y.clientId + "#" + ky, Word(x), x.clientId + "#" + kx);
    SplitPrefix(x.clientId, kx, y.clientId, ky);
    SplitPrefix(y.clientId, ky, x.clientId, kx);
    if x.ClientKidPurpose? {
      assert kx == x.kid + "#" + x.purposeId && ky == y.kid + "#" + y.purposeId;
      SplitPrefix(x.kid, x.purposeId, y.kid, y.purposeId);
      SplitPrefix(y.kid, y.purposeId, x.kid, x.purposeId);
    } else {
      assert kx == x.kid && ky == y.kid;
    }
  }
}
