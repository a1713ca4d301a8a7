/** The slash-catalog cache: one entry and one fetch token per project/agent
    pairing, all invalidated and asked for again when a global command changes. */
module SlashCatalog {
  import opened JoinedKeys
  import opened Options

  /** What a catalog shows, told by how many global-command mutations it reflects. */
  type Catalog = nat

  datatype Pairing = Pairing(projectId: Option<string>, agentId: Option<string>)

  function OrDash(id: Option<string>): string {
    if id.Some? then id.value else "-"
  }

  function CatalogKey(p: Pairing): string {
    OrDash(p.projectId) + "::" + OrDash(p.agentId)
  }

  datatype Client = Client(tokens: map<string, nat>, params: map<string, Pairing>, cache: map<string, Catalog>)

  const EMPTY := Client(map[], map[], map[])

  function TokenOf(tokens: map<string, nat>, key: string): nat {
    if key in tokens then tokens[key] else 0
  }

  function BeginLoad(c: Client, p: Pairing): Client {
    var key := CatalogKey(p);
    c.(tokens := c.tokens[key := TokenOf(c.tokens, key) + 1], params := c.params[key := p])
  }

  function FinishLoad(c: Client, key: string, token: nat, data: Option<Catalog>): Client {
    if data.Some? && TokenOf(c.tokens, key) == token then c.(cache := c.cache[key := data.value]) else c
  }

  function Bump(tokens: map<string, nat>, keys: set<string>): map<string, nat> {
    map k | k in tokens :: tokens[k] + if k in keys then 1 else 0
  }

  /** An acknowledged mutation: every token moves once, and once more for the
      request its known pairing sends. */
  function Acknowledge(c: Client): Client {
    c.(tokens := Bump(Bump(c.tokens, c.tokens.Keys), c.params.Keys))
  }

  ghost predicate Coherent(c: Client) {
    c.tokens.Keys == c.params.Keys && c.cache.Keys <= c.params.Keys
    && forall k :: k in c.params ==> CatalogKey(c.params[k]) == k
  }

  class Store {
    var slashCatalogFetchToken: map<string, nat>
    var catalogParamsByKey: map<string, Pairing>
    var slashCatalogByKey: map<string, Catalog>

    ghost function View(): Client
      reads this
    {
      Client(slashCatalogFetchToken, catalogParamsByKey, slashCatalogByKey)
    }

    constructor ()
      ensures View() == EMPTY
    {
      slashCatalogFetchToken, catalogParamsByKey, slashCatalogByKey := map[], map[], map[];
    }

    method LoadSlashCatalog(p: Pairing) returns (key: string, token: nat)
      modifies this
      ensures View() == BeginLoad(old(View()), p)
      ensures key == CatalogKey(p) && token == slashCatalogFetchToken[key]
    {
      key := CatalogKey(p);
      token := TokenOf(slashCatalogFetchToken, key) + 1;
      slashCatalogFetchToken := slashCatalogFetchToken[key := token];
      catalogParamsByKey := catalogParamsByKey[key := p];
    }

    method SlashCatalogReplied(key: string, token: nat, data: Option<Catalog>)
      modifies this
      ensures View() == FinishLoad(old(View()), key, token, data)
    {
      if data.Some? && TokenOf(slashCatalogFetchToken, key) == token {
        slashCatalogByKey := slashCatalogByKey[key := data.value];
      }
    }

    method InvalidateAllSlashCatalogFetches()
      modifies this`slashCatalogFetchToken
      ensures slashCatalogFetchToken == Bump(old(slashCatalogFetchToken), old(slashCatalogFetchToken).Keys)
    {
      var keys := slashCatalogFetchToken.Keys;
      ghost var all, was := keys, slashCatalogFetchToken;
      while keys != {}
        invariant keys <= all == was.Keys && slashCatalogFetchToken == Bump(was, all - keys)
        decreases |keys|
      {
        var key :| key in keys;
        BumpOneMore(was, all - keys, key);
        assert all - (keys - {key}) == all - keys + {key};
        slashCatalogFetchToken := slashCatalogFetchToken[key := slashCatalogFetchToken[key] + 1];
        keys := keys - {key};
      }
      assert all - keys == all;
    }

    method Reload(key: string) returns (token: nat)
      requires key in catalogParamsByKey && key in slashCatalogFetchToken && CatalogKey(catalogParamsByKey[key]) == key
      modifies this
      ensures catalogParamsByKey == old(catalogParamsByKey) && slashCatalogByKey == old(slashCatalogByKey)
      ensures token == old(slashCatalogFetchToken)[key] + 1
      ensures slashCatalogFetchToken == old(slashCatalogFetchToken)[key := token]
    {
      ReloadOnlyCounts(View(), key);
      var _, t := LoadSlashCatalog(catalogParamsByKey[key]);
      token := t;
    }

    /** What an acknowledged mutation does before it waits again. Each request
        it sends carries its pairing's token as it then is. */
    method MutationAcknowledged()
      requires Coherent(View())
      modifies this
      ensures View() == Acknowledge(old(View()))
    {
      InvalidateAllSlashCatalogFetches();
      ReloadAll();
    }

    method ReloadAll()
      requires Coherent(View())
      modifies this
      ensures catalogParamsByKey == old(catalogParamsByKey) && slashCatalogByKey == old(slashCatalogByKey)
      ensures slashCatalogFetchToken == Bump(old(slashCatalogFetchToken), old(catalogParamsByKey).Keys)
    {
      var keys := catalogParamsByKey.Keys;
      ghost var was := slashCatalogFetchToken;
      while keys != {}
        invariant catalogParamsByKey == old(catalogParamsByKey) && slashCatalogByKey == old(slashCatalogByKey)
        invariant keys <= was.Keys == slashCatalogFetchToken.Keys
        invariant forall k :: k in was ==> slashCatalogFetchToken[k] == was[k] + if k in keys then 0 else 1
        decreases |keys|
      {
        var key :| key in keys;
        var _ := Reload(key);
        keys := keys - {key};
      }
    }
  }

  lemma BumpOneMore(tokens: map<string, nat>, keys: set<string>, key: string)
    requires key in tokens && key !in keys
    ensures var b := Bump(tokens, keys); b[key := b[key] + 1] == Bump(tokens, keys + {key})
    ensures Bump(tokens, {}) == tokens
  {
  }

  /** Asking again for a known pairing only moves its token. */
  lemma ReloadOnlyCounts(c: Client, key: string)
    requires key in c.params && key in c.tokens && CatalogKey(c.params[key]) == key
    ensures BeginLoad(c, c.params[key]) == c.(tokens := c.tokens[key := c.tokens[key] + 1])
  {
    assert c.params[key := c.params[key]] == c.params;
  }

  // --- how far a key identifies a pairing ---

  predicate Plain(p: Pairing) {
    p.projectId != Some("-") && p.agentId != Some("-") && (p.projectId.Some? ==> NoColon(p.projectId.value))
  }

  /** With no lone dash for an id and no colon in a project's, the key
      identifies the pairing. */
  lemma KeyIdentifies(p: Pairing, q: Pairing)
    requires Plain(p) && Plain(q)
    ensures CatalogKey(p) == CatalogKey(q) <==> p == q
  {
    if CatalogKey(p) == CatalogKey(q) {
      SplitsOneWay(OrDash(p.projectId), OrDash(p.agentId), OrDash(q.projectId), OrDash(q.agentId), "::");
    }
  }

  /** The separator occurs in the key only where the parts were joined. */
  predicate JoinedOnce(p: Pairing) {
    var key := CatalogKey(p);
    forall i :: 0 <= i < |key| - 1 && key[i] == ':' && key[i + 1] == ':' ==> i == |OrDash(p.projectId)|
  }

  predicate Named(id: Option<string>) {
    id.Some? && id.value != "-"
  }

  lemma OtherSplit(p: Pairing, i: nat) returns (q: Pairing)
    requires i < |CatalogKey(p)| - 1 && CatalogKey(p)[i] == ':' && CatalogKey(p)[i + 1] == ':'
    requires i != |OrDash(p.projectId)|
    ensures CatalogKey(q) == CatalogKey(p) && q != p
  {
    var key := CatalogKey(p);
    q := Pairing(Some(key[..i]), Some(key[i + 2..]));
    assert key == key[..i] + "::" + key[i + 2..];
  }

  lemma OneSplit(p: Pairing, q: Pairing)
    requires Named(p.projectId) && Named(p.agentId) && JoinedOnce(p) && CatalogKey(q) == CatalogKey(p)
    ensures q == p
  {
    var key, i := CatalogKey(q), |OrDash(q.projectId)|;
    assert key[i] == ':' && key[i + 1] == ':';
    assert OrDash(q.projectId) == key[..i] && OrDash(q.agentId) == key[i + 2..];
    assert OrDash(p.projectId) == CatalogKey(p)[..i] && OrDash(p.agentId) == CatalogKey(p)[i + 2..];
  }

  function Swapped(id: Option<string>): Option<string> {
    if id.None? then Some("-") else None
  }

  /** The key of a pairing is no other pairing's if and only if both ids are
      given, neither is a lone dash, and the separator occurs once. */
  lemma KeyIsOwnExactly(p: Pairing)
    ensures (forall q :: CatalogKey(q) == CatalogKey(p) ==> q == p)
            <==> Named(p.projectId) && Named(p.agentId) && JoinedOnce(p)
  {
    if !Named(p.projectId) {
      assert CatalogKey(p.(projectId := Swapped(p.projectId))) == CatalogKey(p);
    } else if !Named(p.agentId) {
      assert CatalogKey(p.(agentId := Swapped(p.agentId))) == CatalogKey(p);
    } else if JoinedOnce(p) {
      forall q | CatalogKey(q) == CatalogKey(p) ensures q == p { OneSplit(p, q); }
    } else {
      var key := CatalogKey(p);
      var i :| 0 <= i < |key| - 1 && key[i] == ':' && key[i + 1] == ':' && i != |OrDash(p.projectId)|;
      var q := OtherSplit(p, i);
    }
  }
}
